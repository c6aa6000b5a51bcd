// The GraphQL shop's read-only resolvers: the top-level queries (Catalog,
// Shop, Seller, MyCart) and the fields of items, catalogs and sellers.
module ShopQueries {
  import opened Outcomes
  import opened GoStrconv
  import opened ShopData
  import opened Slices

  // ---------------------------------------------------------------------
  // Lists built by appending in a loop

  /** Each element mapped, in order. */
  function Mapped<A, B>(xs: seq<A>, f: A -> B): (r: seq<B>)
    ensures |r| == |xs|
    ensures forall k :: 0 <= k < |xs| ==> r[k] == f(xs[k])
  {
    if |xs| == 0 then [] else Mapped(xs[..|xs| - 1], f) + [f(xs[|xs| - 1])]
  }

  /** The loop of Shop, Childs and both Items resolvers: every element that
      passes is shown and appended. */
  method Collect<T, V>(xs: seq<T>, keep: T -> bool, view: T -> V) returns (results: seq<V>)
    ensures results == Mapped(Filter(xs, keep), view)
  {
    results := [];
    var i := 0;
    while i < |xs|
      invariant 0 <= i <= |xs|
      invariant results == Mapped(Filter(xs[..i], keep), view)
    {
      ghost var before := Filter(xs[..i], keep);
      assert xs[..i + 1][..i] == xs[..i];
      if keep(xs[i]) {
        assert Filter(xs[..i + 1], keep) == before + [xs[i]];
        assert (before + [xs[i]])[..|before|] == before;
        results := results + [view(xs[i])];
      } else {
        assert Filter(xs[..i + 1], keep) == before;
      }
      i := i + 1;
    }
    assert xs[..i] == xs;
  }

  /** The start/end arithmetic of the Items resolvers before slicing. */
  method Slice<T>(items: seq<T>, offset: Option<int>, limit: Option<int>) returns (window: seq<T>)
    requires WindowDefined(|items|, offset, limit)
    ensures window == Window(items, offset, limit)
  {
    var start := 0;
    if offset.Some? {
      start := offset.value;
    }
    var end := |items|;
    if limit.Some? {
      end := start + limit.value;
      if end > |items| {
        end := |items|;
      }
    }
    if start >= |items| {
      return [];
    }
    window := items[start..end];
  }

  // ---------------------------------------------------------------------
  // Searches

  /** The first catalog with the id. */
  function FirstCatalog(catalogs: seq<CatalogData>, id: int): (r: Option<CatalogData>)
    ensures r.Some? ==> r.value in catalogs && r.value.id == id
    ensures r.None? <==> forall k :: 0 <= k < |catalogs| ==> catalogs[k].id != id
  {
    if |catalogs| == 0 then None
    else if catalogs[0].id == id then Some(catalogs[0])
    else FirstCatalog(catalogs[1..], id)
  }

  /** The first seller with the id. */
  function FirstSeller(sellers: seq<SellerData>, id: int): (r: Option<SellerData>)
    ensures r.Some? ==> r.value in sellers && r.value.id == id
    ensures r.None? <==> forall k :: 0 <= k < |sellers| ==> sellers[k].id != id
  {
    if |sellers| == 0 then None
    else if sellers[0].id == id then Some(sellers[0])
    else FirstSeller(sellers[1..], id)
  }

  /** An id argument a resolver parses; None is GraphQL's null. */
  function ParseArg(id: Option<string>): Option<Result<int, Failure>> {
    if id.None? then None else Some(ParseId(id.value))
  }

  // ---------------------------------------------------------------------
  // Query

  /** Query.Catalog: the id is required and must be a number; the first
      catalog with it, or "catalog not found". */
  function CatalogQuery(data: TestData, id: Option<string>): (r: Result<CatalogView, Failure>) {
    if id.None? then Err(Message("catalog ID is required"))
    else match ParseId(id.value)
      case Err(e) => Err(e)
      case Ok(catalogId) =>
        match FirstCatalog(data.catalogs, catalogId)
        case None => Err(Message("catalog not found"))
        case Some(cat) => Ok(CatalogViewOf(cat))
  }

  /** Query.Catalog answers with a catalog of the requested id, and refuses
      only a missing id, a non-number or an id no catalog has. */
  lemma CatalogQueryMeaning(data: TestData, text: string)
    ensures CatalogQuery(data, None) == Err(Message("catalog ID is required"))
    ensures Atoi(text).None? ==> CatalogQuery(data, Some(text)) == Err(BadNumber(text))
    ensures Atoi(text).Some? ==>
              (CatalogQuery(data, Some(text)).Ok? <==>
               exists k :: 0 <= k < |data.catalogs| && data.catalogs[k].id == Atoi(text).value)
    ensures CatalogQuery(data, Some(text)).Ok? ==>
              exists k :: 0 <= k < |data.catalogs| && data.catalogs[k].id == Atoi(text).value &&
                          CatalogQuery(data, Some(text)).value == CatalogViewOf(data.catalogs[k])
  {
    if CatalogQuery(data, Some(text)).Ok? {
      var c := FirstCatalog(data.catalogs, Atoi(text).value).value;
      var k :| 0 <= k < |data.catalogs| && data.catalogs[k] == c;
    }
  }

  /** Query.Seller: the id is required and must be a number; the first seller
      with it, or "seller not found". */
  function SellerQuery(data: TestData, id: Option<string>): (r: Result<SellerView, Failure>) {
    if id.None? then Err(Message("seller ID is required"))
    else match ParseId(id.value)
      case Err(e) => Err(e)
      case Ok(sellerId) =>
        match FirstSeller(data.sellers, sellerId)
        case None => Err(Message("seller not found"))
        case Some(seller) => Ok(SellerViewOf(seller))
  }

  /** Query.Seller answers with a seller of the requested id, and refuses only
      a missing id, a non-number or an id no seller has. */
  lemma SellerQueryMeaning(data: TestData, text: string)
    ensures SellerQuery(data, None) == Err(Message("seller ID is required"))
    ensures Atoi(text).None? ==> SellerQuery(data, Some(text)) == Err(BadNumber(text))
    ensures Atoi(text).Some? ==>
              (SellerQuery(data, Some(text)).Ok? <==>
               exists k :: 0 <= k < |data.sellers| && data.sellers[k].id == Atoi(text).value)
    ensures SellerQuery(data, Some(text)).Ok? ==>
              exists k :: 0 <= k < |data.sellers| && data.sellers[k].id == Atoi(text).value &&
                          SellerQuery(data, Some(text)).value == SellerViewOf(data.sellers[k])
  {
    if SellerQuery(data, Some(text)).Ok? {
      var s := FirstSeller(data.sellers, Atoi(text).value).value;
      var k :| 0 <= k < |data.sellers| && data.sellers[k] == s;
    }
  }

  /** The catalogs Shop lists under a parent: with no parent the roots. */
  function Under(catalogs: seq<CatalogData>, parent: Option<int>): seq<CatalogData> {
    Filter(catalogs, (c: CatalogData) => c.parentId == parent)
  }

  /** Query.Shop: without an argument the root catalogs, with one the
      catalogs under that parent, in data order; a non-number is refused. */
  method Shop(data: TestData, parentId: Option<string>) returns (r: Result<seq<CatalogView>, Failure>)
    ensures parentId.Some? && Atoi(parentId.value).None? ==> r == Err(BadNumber(parentId.value))
    ensures parentId.None? ==> r == Ok(Mapped(Under(data.catalogs, None), CatalogViewOf))
    ensures parentId.Some? && Atoi(parentId.value).Some? ==>
              r == Ok(Mapped(Under(data.catalogs, Atoi(parentId.value)), CatalogViewOf))
  {
    var targetParentId: Option<int> := None;
    if parentId.Some? {
      var pid := ParseId(parentId.value);
      if pid.Err? {
        return Err(pid.error);
      }
      targetParentId := Some(pid.value);
    }
    var results := Collect(data.catalogs, (c: CatalogData) => c.parentId == targetParentId, CatalogViewOf);
    r := Ok(results);
  }

  /** The catalogs under a parent are exactly those whose parent id it is;
      a catalog of the data is under exactly one parent (or is a root). */
  lemma UnderMeaning(catalogs: seq<CatalogData>, parent: Option<int>, c: CatalogData)
    ensures c in Under(catalogs, parent) <==> c in catalogs && c.parentId == parent
    ensures Under(catalogs, parent) == Filter(catalogs, (d: CatalogData) => d.parentId == parent)
    ensures |Under(catalogs, parent)| <= |catalogs|
  {
    FilterMeaning(catalogs, (d: CatalogData) => d.parentId == parent);
  }

  /** Query.MyCart: the caller's cart, entry by entry; a request without a
      user is refused. */
  method MyCart(carts: Carts, user: Option<string>) returns (r: Result<seq<CartItem>, Failure>)
    ensures user.None? ==> r == Err(NoUser)
    ensures user.Some? ==> r == Ok(CartOf(carts, user.value))
  {
    if user.None? {
      return Err(NoUser);
    }
    var cartItems := CartOf(carts, user.value);
    var result := Collect(cartItems, (e: CartItem) => true, (e: CartItem) => CartItem(e.quantity, e.item));
    FilterAll(cartItems, (e: CartItem) => true);
    assert result == cartItems;
    r := Ok(result);
  }

  // ---------------------------------------------------------------------
  // Item fields

  /** Item.parent: the first catalog of the first item with the id that has
      one (an item whose catalog is missing does not stop the search). */
  function ParentOfItem(items: seq<ItemData>, catalogs: seq<CatalogData>, itemId: int): Option<CatalogData> {
    if |items| == 0 then None
    else if items[0].id == itemId && FirstCatalog(catalogs, items[0].catalogId).Some? then FirstCatalog(catalogs, items[0].catalogId)
    else ParentOfItem(items[1..], catalogs, itemId)
  }

  /** Item.seller: the first seller of the first item with the id that has
      one. */
  function SellerOfItem(items: seq<ItemData>, sellers: seq<SellerData>, itemId: int): Option<SellerData> {
    if |items| == 0 then None
    else if items[0].id == itemId && FirstSeller(sellers, items[0].sellerId).Some? then FirstSeller(sellers, items[0].sellerId)
    else SellerOfItem(items[1..], sellers, itemId)
  }

  /** The item's parent is a catalog of one of the items with that id, and
      there is one exactly when such an item's catalog exists; when the ids
      are unique it is the catalog of the item. */
  lemma {:induction false} ParentOfItemMeaning(items: seq<ItemData>, catalogs: seq<CatalogData>, itemId: int)
    ensures ParentOfItem(items, catalogs, itemId).Some? ==>
              exists k :: 0 <= k < |items| && items[k].id == itemId &&
                          ParentOfItem(items, catalogs, itemId) == FirstCatalog(catalogs, items[k].catalogId)
    ensures ParentOfItem(items, catalogs, itemId).None? <==>
              forall k :: 0 <= k < |items| && items[k].id == itemId ==> FirstCatalog(catalogs, items[k].catalogId).None?
    ensures FirstItem(items, itemId).Some? && (forall j, k :: 0 <= j < k < |items| ==> items[j].id != items[k].id) ==>
              ParentOfItem(items, catalogs, itemId) == FirstCatalog(catalogs, FirstItem(items, itemId).value.catalogId)
    decreases |items|
  {
    if |items| > 0 {
      ParentOfItemMeaning(items[1..], catalogs, itemId);
      if ParentOfItem(items[1..], catalogs, itemId).Some? {
        var k :| 0 <= k < |items[1..]| && items[1..][k].id == itemId &&
                 ParentOfItem(items[1..], catalogs, itemId) == FirstCatalog(catalogs, items[1..][k].catalogId);
        assert items[k + 1] == items[1..][k];
      }
      forall k | 0 < k < |items| ensures items[k] == items[1..][k - 1] {
      }
    }
  }

  /** The item's seller is a seller of one of the items with that id, and
      there is one exactly when such an item's seller exists; when the ids
      are unique it is the seller of the item. */
  lemma {:induction false} SellerOfItemMeaning(items: seq<ItemData>, sellers: seq<SellerData>, itemId: int)
    ensures SellerOfItem(items, sellers, itemId).Some? ==>
              exists k :: 0 <= k < |items| && items[k].id == itemId &&
                          SellerOfItem(items, sellers, itemId) == FirstSeller(sellers, items[k].sellerId)
    ensures SellerOfItem(items, sellers, itemId).None? <==>
              forall k :: 0 <= k < |items| && items[k].id == itemId ==> FirstSeller(sellers, items[k].sellerId).None?
    ensures FirstItem(items, itemId).Some? && (forall j, k :: 0 <= j < k < |items| ==> items[j].id != items[k].id) ==>
              SellerOfItem(items, sellers, itemId) == FirstSeller(sellers, FirstItem(items, itemId).value.sellerId)
    decreases |items|
  {
    if |items| > 0 {
      SellerOfItemMeaning(items[1..], sellers, itemId);
      if SellerOfItem(items[1..], sellers, itemId).Some? {
        var k :| 0 <= k < |items[1..]| && items[1..][k].id == itemId &&
                 SellerOfItem(items[1..], sellers, itemId) == FirstSeller(sellers, items[1..][k].sellerId);
        assert items[k + 1] == items[1..][k];
      }
      forall k | 0 < k < |items| ensures items[k] == items[1..][k - 1] {
      }
    }
  }

  /** Item.parent: nothing for an item without an id, the conversion error
      for a non-number. */
  function ItemParent(data: TestData, obj: ItemView): Result<Option<CatalogView>, Failure> {
    match ParseArg(obj.id)
    case None => Ok(None)
    case Some(Err(e)) => Err(e)
    case Some(Ok(itemId)) =>
      match ParentOfItem(data.items, data.catalogs, itemId)
      case None => Ok(None)
      case Some(cat) => Ok(Some(CatalogViewOf(cat)))
  }

  /** Item.seller: nothing for an item without an id, the conversion error
      for a non-number. */
  function ItemSeller(data: TestData, obj: ItemView): Result<Option<SellerView>, Failure> {
    match ParseArg(obj.id)
    case None => Ok(None)
    case Some(Err(e)) => Err(e)
    case Some(Ok(itemId)) =>
      match SellerOfItem(data.items, data.sellers, itemId)
      case None => Ok(None)
      case Some(seller) => Ok(Some(SellerViewOf(seller)))
  }

  /** Item.inCart: needs a user; 0 for an item without an id; otherwise the
      quantity of the first entry for the item in the caller's cart, or 0. */
  function InCart(carts: Carts, user: Option<string>, obj: ItemView): Result<int, Failure> {
    if user.None? then Err(NoUser)
    else match ParseArg(obj.id)
      case None => Ok(0)
      case Some(Err(e)) => Err(e)
      case Some(Ok(itemId)) => Ok(FirstQuantity(CartOf(carts, user.value), itemId))
  }

  /** The item fields refuse only as described: no id gives nothing, a
      non-number gives the conversion error; InCart reports the quantity of
      the first entry that refers to the item, 0 if none does. */
  lemma ItemFieldsMeaning(data: TestData, carts: Carts, user: string, obj: ItemView)
    ensures obj.id.None? ==> ItemParent(data, obj) == Ok(None) && ItemSeller(data, obj) == Ok(None) &&
                             InCart(carts, Some(user), obj) == Ok(0)
    ensures obj.id.Some? && Atoi(obj.id.value).None? ==>
              var e := BadNumber(obj.id.value);
              ItemParent(data, obj) == Err(e) && ItemSeller(data, obj) == Err(e) && InCart(carts, Some(user), obj) == Err(e)
    ensures InCart(carts, None, obj) == Err(NoUser)
    ensures obj.id.Some? && Atoi(obj.id.value).Some? ==>
              var cart, id := CartOf(carts, user), Atoi(obj.id.value).value;
              && InCart(carts, Some(user), obj).Ok?
              && (InCart(carts, Some(user), obj).value != 0 ==> exists k :: 0 <= k < |cart| && Refers(cart[k], id))
              && forall k :: 0 <= k < |cart| && Refers(cart[k], id) && (forall j :: 0 <= j < k ==> !Refers(cart[j], id)) ==>
                   InCart(carts, Some(user), obj).value == cart[k].quantity
  {
    if obj.id.Some? && Atoi(obj.id.value).Some? {
      var cart, id := CartOf(carts, user), Atoi(obj.id.value).value;
      forall k | 0 <= k < |cart| && Refers(cart[k], id) && (forall j :: 0 <= j < k ==> !Refers(cart[j], id))
        ensures FirstQuantity(cart, id) == cart[k].quantity
      {
        FirstEntryAt(cart, id, k);
      }
    }
  }

  /** The stock level shown for what is left of an item. */
  function StockText(available: int): (text: string)
    ensures text == "мало" <==> available <= 1
    ensures text == "хватает" <==> 2 <= available <= 3
    ensures text == "много" <==> available > 3
  {
    if available <= 1 then "мало"
    else if available >= 2 && available <= 3 then "хватает"
    else "много"
  }

  /** Item.inStockText: empty for an item without an id or not in the data;
      otherwise the level of its stock less what all carts hold. */
  ghost function InStockTextOf(data: TestData, carts: Carts, obj: ItemView): Result<string, Failure> {
    match ParseArg(obj.id)
    case None => Ok("")
    case Some(Err(e)) => Err(e)
    case Some(Ok(itemId)) =>
      match FirstItem(data.items, itemId)
      case None => Ok("")
      case Some(item) => Ok(StockText(item.inStock - Total(carts, itemId)))
  }

  /** Item.inStockText: find the item, add up its quantity over every cart,
      and name the level of what is left. */
  method InStockText(data: TestData, carts: Carts, obj: ItemView) returns (r: Result<string, Failure>)
    ensures r == InStockTextOf(data, carts, obj)
  {
    if obj.id.None? {
      return Ok("");
    }
    var parsed := ParseId(obj.id.value);
    if parsed.Err? {
      return Err(parsed.error);
    }
    var itemId := parsed.value;
    var item, found := FindItem(data.items, itemId);
    if !found {
      return Ok("");
    }
    var totalInCarts := SumInCarts(carts, itemId);
    var available := item.inStock - totalInCarts;
    r := Ok(StockText(available));
  }

  /** With every item within its stock, a known item never shows less than
      nothing left: "мало" means at most one left, and "много" at least four. */
  lemma InStockTextLevels(data: TestData, carts: Carts, obj: ItemView)
    requires obj.id.Some? && Atoi(obj.id.value).Some?
    requires FirstItem(data.items, Atoi(obj.id.value).value).Some?
    ensures var item, id := FirstItem(data.items, Atoi(obj.id.value).value).value, Atoi(obj.id.value).value;
            InStockTextOf(data, carts, obj) == Ok("много") <==> Total(carts, id) + 4 <= item.inStock
    ensures var item, id := FirstItem(data.items, Atoi(obj.id.value).value).value, Atoi(obj.id.value).value;
            InStockTextOf(data, carts, obj) == Ok("мало") <==> item.inStock <= Total(carts, id) + 1
  {
  }

  // ---------------------------------------------------------------------
  // Catalog fields

  /** Catalog.parent: the first catalog with the id that has a parent id
      which some catalog carries; a root or unknown catalog has none. */
  function ParentOfCatalog(cats: seq<CatalogData>, all: seq<CatalogData>, catalogId: int): Option<CatalogData> {
    if |cats| == 0 then None
    else if cats[0].id == catalogId && cats[0].parentId.Some? && FirstCatalog(all, cats[0].parentId.value).Some?
    then FirstCatalog(all, cats[0].parentId.value)
    else ParentOfCatalog(cats[1..], all, catalogId)
  }

  /** The parent found is a catalog whose id is the parent id of a catalog
      with the requested id; a root with a unique id has none. */
  lemma {:induction false} ParentOfCatalogMeaning(cats: seq<CatalogData>, all: seq<CatalogData>, catalogId: int)
    ensures ParentOfCatalog(cats, all, catalogId).Some? ==>
              ParentOfCatalog(cats, all, catalogId).value in all &&
              exists k :: 0 <= k < |cats| && cats[k].id == catalogId && cats[k].parentId == Some(ParentOfCatalog(cats, all, catalogId).value.id)
    ensures (forall k :: 0 <= k < |cats| && cats[k].id == catalogId ==> cats[k].parentId.None?) ==>
              ParentOfCatalog(cats, all, catalogId).None?
    decreases |cats|
  {
    if |cats| > 0 {
      ParentOfCatalogMeaning(cats[1..], all, catalogId);
      if ParentOfCatalog(cats[1..], all, catalogId).Some? {
        var p := ParentOfCatalog(cats[1..], all, catalogId).value;
        var k :| 0 <= k < |cats[1..]| && cats[1..][k].id == catalogId && cats[1..][k].parentId == Some(p.id);
        assert cats[k + 1] == cats[1..][k];
      }
      forall k | 0 < k < |cats| ensures cats[k] == cats[1..][k - 1] {
      }
    }
  }

  /** A catalog or seller as its field resolvers receive it: the id may be
      nil. */
  datatype Owner = Owner(id: Option<string>)

  /** Catalog.parent: nothing for a catalog without an id, the conversion
      error for a non-number. */
  function CatalogParent(data: TestData, obj: Owner): Result<Option<CatalogView>, Failure> {
    match ParseArg(obj.id)
    case None => Ok(None)
    case Some(Err(e)) => Err(e)
    case Some(Ok(catalogId)) =>
      match ParentOfCatalog(data.catalogs, data.catalogs, catalogId)
      case None => Ok(None)
      case Some(cat) => Ok(Some(CatalogViewOf(cat)))
  }

  /** Catalog.childs: the catalogs whose parent id is this catalog's id, in
      data order; nothing for a catalog without an id. */
  method Childs(data: TestData, obj: Owner) returns (r: Result<seq<CatalogView>, Failure>)
    ensures obj.id.None? ==> r == Ok([])
    ensures obj.id.Some? && Atoi(obj.id.value).None? ==> r == Err(BadNumber(obj.id.value))
    ensures obj.id.Some? && Atoi(obj.id.value).Some? ==>
              r == Ok(Mapped(Under(data.catalogs, Atoi(obj.id.value)), CatalogViewOf))
  {
    if obj.id.None? {
      return Ok([]);
    }
    var parsed := ParseId(obj.id.value);
    if parsed.Err? {
      return Err(parsed.error);
    }
    var catalogId := parsed.value;
    // A parent id that is set and equal to the catalog's id.
    var children := Collect(data.catalogs, (c: CatalogData) => c.parentId == Some(catalogId), CatalogViewOf);
    r := Ok(children);
  }

  /** The items of the data that pass `keep`, shown. */
  function ItemsWhere(items: seq<ItemData>, keep: ItemData -> bool): seq<ItemView> {
    Mapped(Filter(items, keep), ItemViewOf)
  }

  /** An Items field's offset and limit can be applied to the matching items
      (or the field does not get that far). */
  predicate ItemsWindowDefined(items: seq<ItemData>, id: Option<string>, keep: int -> ItemData -> bool, offset: Option<int>, limit: Option<int>) {
    id.Some? && Atoi(id.value).Some? ==>
      WindowDefined(|Filter(items, keep(Atoi(id.value).value))|, offset, limit)
  }

  /** The shared body of Catalog.items and Seller.items: parse the id, keep
      the matching items, apply the window. */
  method ItemsOf(items: seq<ItemData>, id: Option<string>, keep: int -> ItemData -> bool, offset: Option<int>, limit: Option<int>)
    returns (r: Result<seq<ItemView>, Failure>)
    requires ItemsWindowDefined(items, id, keep, offset, limit)
    ensures id.None? ==> r == Ok([])
    ensures id.Some? && Atoi(id.value).None? ==> r == Err(BadNumber(id.value))
    ensures id.Some? && Atoi(id.value).Some? ==>
              r == Ok(Window(ItemsWhere(items, keep(Atoi(id.value).value)), offset, limit))
  {
    if id.None? {
      return Ok([]);
    }
    var parsed := ParseId(id.value);
    if parsed.Err? {
      return Err(parsed.error);
    }
    var found := Collect(items, keep(parsed.value), ItemViewOf);
    var window := Slice(found, offset, limit);
    r := Ok(window);
  }

  /** The item filter of Catalog.items. */
  function InCatalog(catalogId: int): ItemData -> bool {
    (item: ItemData) => item.catalogId == catalogId
  }

  /** The item filter of Seller.items. */
  function BySeller(sellerId: int): ItemData -> bool {
    (item: ItemData) => item.sellerId == sellerId
  }

  /** Catalog.items: the catalog's items in data order, from the offset (or
      the start), at most `limit` of them (or to the end). */
  method CatalogItems(data: TestData, obj: Owner, limit: Option<int>, offset: Option<int>)
    returns (r: Result<seq<ItemView>, Failure>)
    requires ItemsWindowDefined(data.items, obj.id, InCatalog, offset, limit)
    ensures obj.id.None? ==> r == Ok([])
    ensures obj.id.Some? && Atoi(obj.id.value).None? ==> r == Err(BadNumber(obj.id.value))
    ensures obj.id.Some? && Atoi(obj.id.value).Some? ==>
              r == Ok(Window(ItemsWhere(data.items, InCatalog(Atoi(obj.id.value).value)), offset, limit))
  {
    r := ItemsOf(data.items, obj.id, InCatalog, offset, limit);
  }

  /** Seller.items: the seller's items in data order, from the offset (or
      the start), at most `limit` of them (or to the end). */
  method SellerItems(data: TestData, obj: Owner, limit: Option<int>, offset: Option<int>)
    returns (r: Result<seq<ItemView>, Failure>)
    requires ItemsWindowDefined(data.items, obj.id, BySeller, offset, limit)
    ensures obj.id.None? ==> r == Ok([])
    ensures obj.id.Some? && Atoi(obj.id.value).None? ==> r == Err(BadNumber(obj.id.value))
    ensures obj.id.Some? && Atoi(obj.id.value).Some? ==>
              r == Ok(Window(ItemsWhere(data.items, BySeller(Atoi(obj.id.value).value)), offset, limit))
  {
    r := ItemsOf(data.items, obj.id, BySeller, offset, limit);
  }

  /** What an Items field lists: exactly the items that match, each shown
      from its record, in data order; without a window every one of them. */
  lemma ItemsWhereMeaning(items: seq<ItemData>, keep: ItemData -> bool, a: seq<ItemData>, b: seq<ItemData>)
    ensures forall v :: v in ItemsWhere(items, keep) <==> exists item :: item in items && keep(item) && v == ItemViewOf(item)
    ensures ItemsWhere(a + b, keep) == ItemsWhere(a, keep) + ItemsWhere(b, keep)
    ensures Window(ItemsWhere(items, keep), None, None) == ItemsWhere(items, keep)
  {
    var kept := Filter(items, keep);
    FilterMeaning(items, keep);
    forall v ensures v in ItemsWhere(items, keep) <==> exists item :: item in items && keep(item) && v == ItemViewOf(item) {
      if v in ItemsWhere(items, keep) {
        var k :| 0 <= k < |kept| && ItemsWhere(items, keep)[k] == v;
        assert kept[k] in kept;
      }
      if exists item :: item in items && keep(item) && v == ItemViewOf(item) {
        var item :| item in items && keep(item) && v == ItemViewOf(item);
        var k :| 0 <= k < |kept| && kept[k] == item;
        assert ItemsWhere(items, keep)[k] == v;
      }
    }
    FilterAppend(a, b, keep);
    MappedAppend(Filter(a, keep), Filter(b, keep), ItemViewOf);
    WindowWhole(ItemsWhere(items, keep));
  }

  lemma MappedAppend<A, B>(a: seq<A>, b: seq<A>, f: A -> B)
    ensures Mapped(a + b, f) == Mapped(a, f) + Mapped(b, f)
  {
  }
}
