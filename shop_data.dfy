// The data behind the GraphQL shop: catalogs, items and sellers loaded from
// the test data, the users' carts, and the searches and sums the resolvers
// share.
module ShopData {
  import opened Outcomes
  import opened GoStrconv
  import opened MapIteration

  datatype CatalogData = CatalogData(id: int, name: string, parentId: Option<int>)
  datatype ItemData = ItemData(id: int, name: string, catalogId: int, sellerId: int, inStock: int)
  datatype SellerData = SellerData(id: int, name: string, deals: int)
  datatype TestData = TestData(catalogs: seq<CatalogData>, items: seq<ItemData>, sellers: seq<SellerData>)

  /** model.Item as the resolvers receive and return it: both fields may be
      nil. */
  datatype ItemView = ItemView(id: Option<string>, name: Option<string>)
  datatype CatalogView = CatalogView(id: string, name: string)
  datatype SellerView = SellerView(id: string, name: string, deals: int)
  datatype CartItem = CartItem(quantity: int, item: ItemView)

  /** A resolver's error: no user in the request context (the helper that
      reads it is not part of this model), an id that strconv.Atoi refuses
      (with the text), or a message of the resolver's own. */
  datatype Failure = NoUser | BadNumber(text: string) | Message(text: string)

  /** How the resolvers show a record: ids as decimal text, every field set. */
  function ItemViewOf(item: ItemData): ItemView {
    ItemView(Some(Itoa(item.id)), Some(item.name))
  }

  function CatalogViewOf(catalog: CatalogData): CatalogView {
    CatalogView(Itoa(catalog.id), catalog.name)
  }

  function SellerViewOf(seller: SellerData): SellerView {
    SellerView(Itoa(seller.id), seller.name, seller.deals)
  }

  /** UserCarts: user name -> cart entries. */
  type Carts = map<string, seq<CartItem>>

  /** A user's cart; a user without one has the nil (empty) cart. */
  function CartOf(carts: Carts, user: string): (cart: seq<CartItem>)
    ensures user !in carts ==> cart == []
  {
    if user in carts then carts[user] else []
  }

  /** strconv.Atoi on an id that the resolver received. */
  function ParseId(text: string): (r: Result<int, Failure>)
    ensures r.Ok? <==> Atoi(text).Some?
    ensures r.Ok? ==> Atoi(text) == Some(r.value)
  {
    match Atoi(text)
    case None => Err(BadNumber(text))
    case Some(n) => Ok(n)
  }

  /** The entry is for item `id`: its ID is set and parses to `id`. */
  predicate Refers(entry: CartItem, id: int) {
    entry.item.id.Some? && Atoi(entry.item.id.value) == Some(id)
  }

  /** The first item with the id, if any. */
  function FirstItem(items: seq<ItemData>, id: int): (r: Option<ItemData>)
    ensures r.Some? ==> r.value in items && r.value.id == id
    ensures r.None? <==> forall k :: 0 <= k < |items| ==> items[k].id != id
  {
    if |items| == 0 then None
    else if items[0].id == id then Some(items[0])
    else FirstItem(items[1..], id)
  }

  /** The loop that looks an item up by id and stops at the first match. */
  method FindItem(items: seq<ItemData>, id: int) returns (item: ItemData, found: bool)
    ensures found <==> FirstItem(items, id).Some?
    ensures found ==> item == FirstItem(items, id).value
  {
    found := false;
    item := ItemData(0, "", 0, 0, 0);
    var i := 0;
    while i < |items|
      invariant 0 <= i <= |items|
      invariant FirstItem(items, id) == FirstItem(items[i..], id)
    {
      if items[i].id == id {
        item, found := items[i], true;
        return;
      }
      assert items[i..][1..] == items[i + 1..];
      i := i + 1;
    }
  }

  /** The position of the first entry for the item, or |cart| if none. */
  function FirstEntry(cart: seq<CartItem>, id: int): (k: nat)
    ensures k <= |cart|
    ensures k < |cart| ==> Refers(cart[k], id)
    ensures forall j :: 0 <= j < k ==> !Refers(cart[j], id)
  {
    if |cart| == 0 then 0
    else if Refers(cart[0], id) then 0
    else 1 + FirstEntry(cart[1..], id)
  }

  /** The quantity of the first entry for the item, or 0. */
  function FirstQuantity(cart: seq<CartItem>, id: int): int {
    var k := FirstEntry(cart, id);
    if k < |cart| then cart[k].quantity else 0
  }

  /** The loop that reads the quantity of the item in a cart (first entry). */
  method FindQuantity(cart: seq<CartItem>, id: int) returns (quantity: int)
    ensures quantity == FirstQuantity(cart, id)
  {
    var i := 0;
    while i < |cart|
      invariant 0 <= i <= |cart|
      invariant forall j :: 0 <= j < i ==> !Refers(cart[j], id)
    {
      var entry := cart[i];
      if entry.item.id.Some? && Atoi(entry.item.id.value) == Some(id) {
        FirstEntryAt(cart, id, i);
        return entry.quantity;
      }
      i := i + 1;
    }
    FirstEntryAt(cart, id, i);
    return 0;
  }

  /** The first entry is the one before which no entry is for the item. */
  lemma {:induction false} FirstEntryAt(cart: seq<CartItem>, id: int, i: int)
    requires 0 <= i <= |cart| && (i < |cart| ==> Refers(cart[i], id))
    requires forall j :: 0 <= j < i ==> !Refers(cart[j], id)
    ensures FirstEntry(cart, id) == i
    decreases i
  {
    if i > 0 {
      FirstEntryAt(cart[1..], id, i - 1);
    }
  }

  /** The quantity of the item over all entries of one cart. */
  function CartTotal(cart: seq<CartItem>, id: int): int {
    if |cart| == 0 then 0
    else CartTotal(cart[..|cart| - 1], id) + (if Refers(cart[|cart| - 1], id) then cart[|cart| - 1].quantity else 0)
  }

  lemma {:induction false} CartTotalAppend(a: seq<CartItem>, b: seq<CartItem>, id: int)
    ensures CartTotal(a + b, id) == CartTotal(a, id) + CartTotal(b, id)
    decreases |b|
  {
    if |b| > 0 {
      assert (a + b)[..|a + b| - 1] == a + b[..|b| - 1];
      CartTotalAppend(a, b[..|b| - 1], id);
    } else {
      assert a + b == a;
    }
  }

  /** The quantity of the item over every cart (the order of the carts does
      not matter for a sum). */
  ghost function Total(carts: Carts, id: int): int
    decreases |carts.Keys|
  {
    if carts == map[] then 0
    else
      var user :| user in carts;
      CartTotal(carts[user], id) + Total(carts - {user}, id)
  }

  /** Any cart can be taken out of the sum first. */
  lemma {:induction false} TotalRemove(carts: Carts, user: string, id: int)
    requires user in carts
    ensures Total(carts, id) == CartTotal(carts[user], id) + Total(carts - {user}, id)
    decreases |carts.Keys|
  {
    var u :| u in carts && Total(carts, id) == CartTotal(carts[u], id) + Total(carts - {u}, id);
    if u != user {
      assert (carts - {u}) - {user} == (carts - {user}) - {u};
      TotalRemove(carts - {u}, user, id);
      TotalRemove(carts - {user}, u, id);
    }
  }

  /** Replacing one cart changes the total by the difference of that cart. */
  lemma TotalUpdate(carts: Carts, user: string, cart: seq<CartItem>, id: int)
    ensures Total(carts[user := cart], id) == Total(carts, id) - CartTotal(CartOf(carts, user), id) + CartTotal(cart, id)
  {
    TotalRemove(carts[user := cart], user, id);
    assert carts[user := cart] - {user} == carts - {user};
    if user in carts {
      TotalRemove(carts, user, id);
    } else {
      assert carts - {user} == carts;
    }
  }

  /** The loops that add up the item's quantity over every cart. */
  method SumInCarts(carts: Carts, id: int) returns (total: int)
    ensures total == Total(carts, id)
  {
    total := 0;
    var rest := carts;
    while rest != map[]
      invariant total + Total(rest, id) == Total(carts, id)
      decreases |rest.Keys|
    {
      var user := Pick(rest.Keys);
      var cart := rest[user];
      ghost var before := total;
      var j := 0;
      while j < |cart|
        invariant 0 <= j <= |cart|
        invariant total == before + CartTotal(cart[..j], id)
      {
        var entry := cart[j];
        if entry.item.id.Some? && Atoi(entry.item.id.value) == Some(id) {
          total := total + entry.quantity;
        }
        assert cart[..j + 1][..j] == cart[..j];
        j := j + 1;
      }
      assert cart[..j] == cart;
      TotalRemove(rest, user, id);
      rest := rest - {user};
    }
  }

  /** The offset/limit window of the catalog and seller Items resolvers is
      defined: slicing panics on a negative start, or on a negative limit
      when the start is inside the list. */
  predicate WindowDefined(n: int, offset: Option<int>, limit: Option<int>) {
    var start := offset.GetOr(0);
    start < n ==> start >= 0 && (limit.Some? ==> limit.value >= 0)
  }

  /** start = offset or 0; end = n, or start + limit capped at n; a start at
      or past the end gives the empty list. */
  function Window<T>(xs: seq<T>, offset: Option<int>, limit: Option<int>): (r: seq<T>)
    requires WindowDefined(|xs|, offset, limit)
  {
    var start := offset.GetOr(0);
    var end := if limit.None? then |xs| else if start + limit.value > |xs| then |xs| else start + limit.value;
    if start >= |xs| then [] else xs[start..end]
  }

  /** A window holds at most `limit` elements, each at its place after the
      offset; without a limit it runs to the end. */
  lemma WindowMeaning<T>(xs: seq<T>, offset: Option<int>, limit: Option<int>)
    requires WindowDefined(|xs|, offset, limit)
    ensures limit.Some? ==> |Window(xs, offset, limit)| <= if limit.value < 0 then 0 else limit.value
    ensures limit.None? && 0 <= offset.GetOr(0) < |xs| ==> Window(xs, offset, limit) == xs[offset.GetOr(0)..]
    ensures forall k :: 0 <= k < |Window(xs, offset, limit)| ==> Window(xs, offset, limit)[k] == xs[offset.GetOr(0) + k]
  {
  }

  /** Without an offset or a limit the window is the whole list. */
  lemma WindowWhole<T>(xs: seq<T>)
    ensures WindowDefined(|xs|, None, None) && Window(xs, None, None) == xs
  {
  }

  /** Consecutive windows tile the list. */
  lemma WindowsTile<T>(xs: seq<T>, start: int, a: int, b: int)
    requires 0 <= start && 0 <= a && 0 <= b
    ensures WindowDefined(|xs|, Some(start), Some(a + b)) && WindowDefined(|xs|, Some(start), Some(a)) && WindowDefined(|xs|, Some(start + a), Some(b))
    ensures Window(xs, Some(start), Some(a + b)) == Window(xs, Some(start), Some(a)) + Window(xs, Some(start + a), Some(b))
  {
  }
}
