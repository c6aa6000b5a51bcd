// The GraphQL shop's shared resolver state and its mutations: the carts,
// which AddToCart and RemoveFromCart change under a stock limit, and the
// token table, which registration fills and the auth middleware reads.
module ShopResolver {
  import opened Outcomes
  import opened GoStrings
  import opened GoStrconv
  import opened ShopData

  // ---------------------------------------------------------------------
  // Carts

  /** The entry AddToCart appends for an item the cart does not hold yet. */
  function NewEntry(item: ItemData, quantity: int): CartItem {
    CartItem(quantity, ItemViewOf(item))
  }

  /** The cart after adding: the first entry for the item gets the quantity
      added, in place; without such an entry a new one goes at the end. */
  function PutInCart(cart: seq<CartItem>, item: ItemData, quantity: int): seq<CartItem> {
    var k := FirstEntry(cart, item.id);
    if k < |cart| then cart[k := cart[k].(quantity := cart[k].quantity + quantity)]
    else cart + [NewEntry(item, quantity)]
  }

  /** AddToCart on the carts: a call needs a user and a known item, and is
      refused when the item's quantity over all carts plus the new quantity
      would pass the stock; otherwise only the caller's cart changes. */
  ghost function AddedToCart(data: TestData, carts: Carts, user: Option<string>, itemId: int, quantity: int): Result<Carts, Failure> {
    if user.None? then Err(NoUser)
    else match FirstItem(data.items, itemId)
      case None => Err(Message("item not found"))
      case Some(item) =>
        if Total(carts, itemId) + quantity > item.inStock then Err(Message("not enough quantity"))
        else Ok(carts[user.value := PutInCart(CartOf(carts, user.value), item, quantity)])
  }

  /** RemoveFromCart on one cart: every entry for the item loses the
      quantity and is dropped when nothing positive is left; other entries
      stay, in order. */
  function Removed(cart: seq<CartItem>, id: int, quantity: int): seq<CartItem> {
    if |cart| == 0 then []
    else
      var init, last := cart[..|cart| - 1], cart[|cart| - 1];
      Removed(init, id, quantity) +
      (if !Refers(last, id) then [last]
       else if last.quantity - quantity > 0 then [last.(quantity := last.quantity - quantity)]
       else [])
  }

  /** No item is in carts beyond its stock (the stock of the first item with
      that id, which is the one AddToCart checks). */
  ghost predicate WithinStock(data: TestData, carts: Carts) {
    forall id :: FirstItem(data.items, id).Some? ==> Total(carts, id) <= FirstItem(data.items, id).value.inStock
  }

  /** Every cart entry has a positive quantity. */
  predicate Positive(carts: Carts) {
    forall user, k :: user in carts && 0 <= k < |carts[user]| ==> carts[user][k].quantity > 0
  }

  /** Changing the quantity of one entry changes the cart's total for each
      item by that entry's share. */
  lemma CartTotalAt(cart: seq<CartItem>, k: int, e: CartItem, id: int)
    requires 0 <= k < |cart|
    ensures CartTotal(cart[k := e], id) ==
            CartTotal(cart, id) - (if Refers(cart[k], id) then cart[k].quantity else 0) + (if Refers(e, id) then e.quantity else 0)
  {
    var t := cart[k := e];
    assert cart == cart[..k] + [cart[k]] + cart[k + 1..];
    assert t == cart[..k] + [e] + cart[k + 1..];
    CartTotalAppend(cart[..k] + [cart[k]], cart[k + 1..], id);
    CartTotalAppend(cart[..k], [cart[k]], id);
    CartTotalAppend(cart[..k] + [e], cart[k + 1..], id);
    CartTotalAppend(cart[..k], [e], id);
    assert CartTotal([cart[k]], id) == (if Refers(cart[k], id) then cart[k].quantity else 0) by {
      assert [cart[k]][..0] == [];
    }
    assert CartTotal([e], id) == (if Refers(e, id) then e.quantity else 0) by {
      assert [e][..0] == [];
    }
  }

  /** Adding to a cart adds exactly the quantity to that item and leaves
      every other item's quantity alone; the cart reports its old quantity
      plus the new one. */
  lemma PutInCartTotals(cart: seq<CartItem>, item: ItemData, quantity: int, other: int)
    requires InIntRange(item.id)
    ensures CartTotal(PutInCart(cart, item, quantity), item.id) == CartTotal(cart, item.id) + quantity
    ensures other != item.id ==> CartTotal(PutInCart(cart, item, quantity), other) == CartTotal(cart, other)
    ensures FirstQuantity(PutInCart(cart, item, quantity), item.id) == FirstQuantity(cart, item.id) + quantity
  {
    var k := FirstEntry(cart, item.id);
    var put := PutInCart(cart, item, quantity);
    if k < |cart| {
      CartTotalAt(cart, k, cart[k].(quantity := cart[k].quantity + quantity), item.id);
      CartTotalAt(cart, k, cart[k].(quantity := cart[k].quantity + quantity), other);
      FirstEntryAt(put, item.id, k);
    } else {
      AtoiItoa(item.id);
      CartTotalAppend(cart, [NewEntry(item, quantity)], item.id);
      CartTotalAppend(cart, [NewEntry(item, quantity)], other);
      assert [NewEntry(item, quantity)][..0] == [];
      FirstEntryAt(put, item.id, |cart|);
    }
  }

  /** AddToCart is refused exactly as described: no user, an unknown item, or
      not enough stock left for the quantity over all carts. */
  lemma AddedToCartRefusals(data: TestData, carts: Carts, user: Option<string>, itemId: int, quantity: int)
    ensures AddedToCart(data, carts, user, itemId, quantity).Ok? <==>
              user.Some? && FirstItem(data.items, itemId).Some? &&
              Total(carts, itemId) + quantity <= FirstItem(data.items, itemId).value.inStock
    ensures user.None? ==> AddedToCart(data, carts, user, itemId, quantity) == Err(NoUser)
    ensures user.Some? && FirstItem(data.items, itemId).None? ==> AddedToCart(data, carts, user, itemId, quantity) == Err(Message("item not found"))
  {
  }

  /** On success the item's total grows by the quantity, every other item's
      total stays, only the caller's cart changes, and InCart reports the old
      quantity plus the new one. */
  lemma AddedToCartMeaning(data: TestData, carts: Carts, user: Option<string>, itemId: int, quantity: int, other: int)
    requires forall k :: 0 <= k < |data.items| ==> InIntRange(data.items[k].id)
    requires AddedToCart(data, carts, user, itemId, quantity).Ok?
    ensures var after := AddedToCart(data, carts, user, itemId, quantity).value;
              && after.Keys == carts.Keys + {user.value}
              && (forall u :: u in carts && u != user.value ==> after[u] == carts[u])
              && Total(after, itemId) == Total(carts, itemId) + quantity
              && (other != itemId ==> Total(after, other) == Total(carts, other))
              && FirstQuantity(after[user.value], itemId) == FirstQuantity(CartOf(carts, user.value), itemId) + quantity
  {
    var item := FirstItem(data.items, itemId).value;
    var k :| 0 <= k < |data.items| && data.items[k] == item;
    var cart := CartOf(carts, user.value);
    var put := PutInCart(cart, item, quantity);
    assert AddedToCart(data, carts, user, itemId, quantity).value == carts[user.value := put];
    PutInCartTotals(cart, item, quantity, other);
    TotalUpdate(carts, user.value, put, itemId);
    TotalUpdate(carts, user.value, put, other);
  }

  /** A successful AddToCart keeps every item within its stock, whatever the
      quantity. */
  lemma AddKeepsStock(data: TestData, carts: Carts, user: Option<string>, itemId: int, quantity: int)
    requires forall k :: 0 <= k < |data.items| ==> InIntRange(data.items[k].id)
    requires WithinStock(data, carts) && AddedToCart(data, carts, user, itemId, quantity).Ok?
    ensures WithinStock(data, AddedToCart(data, carts, user, itemId, quantity).value)
  {
    var after: Carts := AddedToCart(data, carts, user, itemId, quantity).value;
    forall id | FirstItem(data.items, id).Some?
      ensures Total(after, id) <= FirstItem(data.items, id).value.inStock
    {
      AddedToCartMeaning(data, carts, user, itemId, quantity, id);
    }
  }

  /** A successful AddToCart with a positive quantity keeps every entry
      positive. */
  lemma AddKeepsPositive(data: TestData, carts: Carts, user: Option<string>, itemId: int, quantity: int)
    requires Positive(carts) && quantity > 0 && AddedToCart(data, carts, user, itemId, quantity).Ok?
    ensures Positive(AddedToCart(data, carts, user, itemId, quantity).value)
  {
    var after: Carts := AddedToCart(data, carts, user, itemId, quantity).value;
    var item := FirstItem(data.items, itemId).value;
    var cart := CartOf(carts, user.value);
    forall u: string, k: int | u in after && 0 <= k < |after[u]| ensures after[u][k].quantity > 0 {
      if u == user.value {
        var j := FirstEntry(cart, item.id);
        if j < |cart| {
          assert cart == carts[u];
        } else if k < |cart| {
          assert cart == carts[u];
        }
      }
    }
  }

  /** Removing a quantity from one entry of the item. */
  function EntryAfterRemove(e: CartItem, id: int, quantity: int): seq<CartItem> {
    if !Refers(e, id) then [e]
    else if e.quantity - quantity > 0 then [e.(quantity := e.quantity - quantity)]
    else []
  }

  /** Removal from a cart never raises an item's quantity when every entry is
      positive and the removed quantity is not negative; other items are
      untouched. */
  lemma {:induction false} RemovedTotals(cart: seq<CartItem>, id: int, quantity: int, other: int)
    requires forall k :: 0 <= k < |cart| ==> cart[k].quantity > 0
    requires quantity >= 0
    ensures CartTotal(Removed(cart, id, quantity), id) <= CartTotal(cart, id)
    ensures other != id ==> CartTotal(Removed(cart, id, quantity), other) == CartTotal(cart, other)
    decreases |cart|
  {
    if |cart| > 0 {
      var init, last := cart[..|cart| - 1], cart[|cart| - 1];
      var tail := EntryAfterRemove(last, id, quantity);
      RemovedTotals(init, id, quantity, other);
      assert Removed(cart, id, quantity) == Removed(init, id, quantity) + tail;
      CartTotalAppend(Removed(init, id, quantity), tail, id);
      CartTotalAppend(Removed(init, id, quantity), tail, other);
      if |tail| == 1 {
        assert tail[..0] == [];
        assert Refers(tail[0], other) == Refers(last, other);
      }
    }
  }

  /** Every entry left by a removal from a cart of positive entries is
      positive. */
  lemma {:induction false} RemovedPositive(cart: seq<CartItem>, id: int, quantity: int)
    requires forall k :: 0 <= k < |cart| ==> cart[k].quantity > 0
    ensures forall k :: 0 <= k < |Removed(cart, id, quantity)| ==> Removed(cart, id, quantity)[k].quantity > 0
    decreases |cart|
  {
    if |cart| > 0 {
      var init := cart[..|cart| - 1];
      RemovedPositive(init, id, quantity);
      assert Removed(cart, id, quantity) == Removed(init, id, quantity) + EntryAfterRemove(cart[|cart| - 1], id, quantity);
    }
  }

  /** RemoveFromCart on the carts: needs a user; the caller's cart becomes
      the cart with the item removed (and is set even if it was absent). */
  function RemovedFromCart(carts: Carts, user: Option<string>, itemId: int, quantity: int): Result<Carts, Failure> {
    if user.None? then Err(NoUser)
    else Ok(carts[user.value := Removed(CartOf(carts, user.value), itemId, quantity)])
  }

  /** With positive entries and a non-negative quantity, RemoveFromCart keeps
      every item within its stock and every entry positive. */
  lemma RemoveKeepsStock(data: TestData, carts: Carts, user: Option<string>, itemId: int, quantity: int)
    requires WithinStock(data, carts) && Positive(carts) && quantity >= 0 && user.Some?
    ensures WithinStock(data, RemovedFromCart(carts, user, itemId, quantity).value)
    ensures Positive(RemovedFromCart(carts, user, itemId, quantity).value)
  {
    var u := user.value;
    var cart := CartOf(carts, u);
    var after: Carts := RemovedFromCart(carts, user, itemId, quantity).value;
    forall id | FirstItem(data.items, id).Some?
      ensures Total(after, id) <= FirstItem(data.items, id).value.inStock
    {
      RemovedTotals(cart, itemId, quantity, id);
      TotalUpdate(carts, u, Removed(cart, itemId, quantity), id);
    }
    RemovedPositive(cart, itemId, quantity);
  }

  /** The stock check has no lower bound on the quantity: an entry can hold a
      negative quantity, and removing nothing from it then drops it, which
      raises the item's total above what AddToCart checked. */
  lemma NegativeEntryRemoval(carts: Carts, user: string, e: CartItem, id: int)
    requires user in carts && carts[user] == [e] && Refers(e, id) && e.quantity < 0
    ensures Total(RemovedFromCart(carts, Some(user), id, 0).value, id) == Total(carts, id) - e.quantity
  {
    assert [e][..0] == [];
    assert Removed([e], id, 0) == [];
    TotalUpdate(carts, user, [], id);
  }

  // ---------------------------------------------------------------------
  // Tokens

  /** The token registration hands out: "token_<username>_<n>". */
  function Token(username: string, n: nat): string {
    "token_" + username + "_" + Itoa(n)
  }

  /** Only digits follow the "_" that precedes a number. */
  lemma DigitsAfterUnderscore(p: string, d: string)
    requires AllDigits(d)
    ensures (p + "_" + d)[|p|] == '_'
    ensures forall i :: |p| < i < |p + "_" + d| ==> IsDigit((p + "_" + d)[i])
  {
    forall i | |p| < i < |p + "_" + d| ensures IsDigit((p + "_" + d)[i]) {
      assert (p + "_" + d)[i] == d[i - |p| - 1];
    }
  }

  /** A text ending in "_" and digits splits there in one way only. */
  lemma UnderscoreSplit(p: string, d: string, q: string, e: string)
    requires AllDigits(d) && AllDigits(e) && p + "_" + d == q + "_" + e
    ensures p == q && d == e
  {
    DigitsAfterUnderscore(p, d);
    DigitsAfterUnderscore(q, e);
    var s := p + "_" + d;
    assert |p| == |q|;
    assert p == s[..|p|] == q;
    assert d == s[|p| + 1..] == e;
  }

  /** Digits end a token after its last "_", so a token names one user and
      one number. */
  lemma TokenInjective(x: string, n: nat, y: string, m: nat)
    requires Token(x, n) == Token(y, m)
    ensures n == m && x == y
  {
    assert Itoa(n) == Digits(n) && Itoa(m) == Digits(m);
    UnderscoreSplit("token_" + x, Itoa(n), "token_" + y, Itoa(m));
    DigitsValueOfDigits(n);
    DigitsValueOfDigits(m);
    assert x == ("token_" + x)[6..] == ("token_" + y)[6..] == y;
  }

  /** Every token in the table was issued when the table had fewer entries
      than it has now, under the number it was issued with. */
  ghost predicate TokensIssued(tokens: map<string, string>, issued: map<string, nat>) {
    && issued.Keys == tokens.Keys
    && forall t :: t in issued ==> issued[t] < |tokens| && t == Token(tokens[t], issued[t])
  }

  /** The token issued next is not in the table yet, and the table with it
      still holds only issued tokens. */
  lemma TokenIsNew(tokens: map<string, string>, issued: map<string, nat>, username: string)
    requires TokensIssued(tokens, issued)
    ensures Token(username, |tokens|) !in tokens
    ensures TokensIssued(tokens[Token(username, |tokens|) := username], issued[Token(username, |tokens|) := |tokens|])
  {
    var t := Token(username, |tokens|);
    if t in tokens {
      TokenInjective(tokens[t], issued[t], username, |tokens|);
      assert false;
    }
  }

  /** The registration body after decoding. */
  datatype RegistrationRequest = RegistrationRequest(email: string, password: string, username: string)

  /** AuthMiddleware: a header "Token <t>" with a known t identifies its
      user; anything else leaves the request anonymous. */
  function Authenticate(tokens: map<string, string>, authHeader: string): Option<string> {
    if authHeader != "" && HasPrefix(authHeader, "Token ") then
      var token := After(authHeader, "Token ");
      if token in tokens then Some(tokens[token]) else None
    else None
  }

  /** A "Token " header names its user exactly when the token is known;
      without the prefix nobody is named. */
  lemma AuthenticateMeaning(tokens: map<string, string>, token: string, authHeader: string)
    ensures Authenticate(tokens, "Token " + token) == if token in tokens then Some(tokens[token]) else None
    ensures !HasPrefix(authHeader, "Token ") ==> Authenticate(tokens, authHeader) == None
  {
    var h := "Token " + token;
    assert HasPrefix(h, "Token ");
    assert After(h, "Token ") == token;
  }

  /** After a registration its token authenticates the new user, and every
      header authenticates as before for the users registered earlier. */
  lemma RegisteredAuthenticates(tokens: map<string, string>, issued: map<string, nat>, username: string, token: string)
    requires TokensIssued(tokens, issued)
    ensures var t := Token(username, |tokens|);
            Authenticate(tokens[t := username], "Token " + t) == Some(username)
    ensures token in tokens ==>
              Authenticate(tokens[Token(username, |tokens|) := username], "Token " + token) == Some(tokens[token])
  {
    var t := Token(username, |tokens|);
    TokenIsNew(tokens, issued, username);
    AuthenticateMeaning(tokens[t := username], t, "");
    AuthenticateMeaning(tokens[t := username], token, "");
  }

  class Resolver {
    const data: TestData
    /** UserCarts: user -> cart entries. */
    var userCarts: Carts
    /** UserTokens: token -> user. */
    var userTokens: map<string, string>
    /** The number each token was issued with. */
    ghost var issued: map<string, nat>

    ghost predicate Valid()
      reads this
    {
      && (forall k :: 0 <= k < |data.items| ==> InIntRange(data.items[k].id))
      && TokensIssued(userTokens, issued)
    }

    /** The resolver the app builds: the loaded data, no carts, no tokens. */
    constructor (testData: TestData)
      requires forall k :: 0 <= k < |testData.items| ==> InIntRange(testData.items[k].id)
      ensures Valid() && data == testData && userCarts == map[] && userTokens == map[]
    {
      data := testData;
      userCarts := map[];
      userTokens := map[];
      issued := map[];
    }

    /** AddToCart: find the item, add up its quantity over every cart, read
        the caller's quantity, refuse past the stock, then update the
        caller's entry or append one. The result mirrors the caller's cart. */
    method AddToCart(user: Option<string>, itemId: int, quantity: int) returns (result: Result<seq<CartItem>, Failure>)
      requires Valid()
      modifies this`userCarts
      ensures Valid()
      ensures AddedToCart(data, old(userCarts), user, itemId, quantity) ==
                (if result.Ok? then Ok(userCarts) else Err(result.error))
      ensures result.Err? ==> userCarts == old(userCarts)
      ensures result.Ok? ==> user.Some? && user.value in userCarts && result.value == userCarts[user.value]
    {
      if user.None? {
        return Err(NoUser);
      }
      var u := user.value;
      var item, found := FindItem(data.items, itemId);
      if !found {
        return Err(Message("item not found"));
      }
      var totalInCarts := SumInCarts(userCarts, itemId);
      var cartItems := CartOf(userCarts, u);
      var currentInCart := FindQuantity(cartItems, itemId);
      var newQuantity := currentInCart + quantity;
      if totalInCarts - currentInCart + newQuantity > item.inStock {
        return Err(Message("not enough quantity"));
      }
      var updated := Put(cartItems, item, quantity, newQuantity);
      userCarts := userCarts[u := updated];
      result := Ok(updated);
    }

    /** RemoveFromCart: rebuild the caller's cart without the removed
        quantity; no stock or item check. */
    method RemoveFromCart(user: Option<string>, itemId: int, quantity: int) returns (result: Result<seq<CartItem>, Failure>)
      requires Valid()
      modifies this`userCarts
      ensures Valid()
      ensures RemovedFromCart(old(userCarts), user, itemId, quantity) ==
                (if result.Ok? then Ok(userCarts) else Err(result.error))
      ensures result.Err? ==> userCarts == old(userCarts)
      ensures result.Ok? ==> user.Some? && user.value in userCarts && result.value == userCarts[user.value]
    {
      if user.None? {
        return Err(NoUser);
      }
      var u := user.value;
      var newCartItems := RemoveFrom(CartOf(userCarts, u), itemId, quantity);
      userCarts := userCarts[u := newCartItems];
      result := Ok(newCartItems);
    }

    /** RegisterHandler: an undecodable body is a 400 with no change;
        otherwise the token "token_<username>_<n>", n the number of tokens so
        far, is bound to the username and returned. */
    method RegisterHandler(request: Option<RegistrationRequest>) returns (status: int, token: Option<string>)
      requires Valid()
      modifies this`userTokens, this`issued
      ensures Valid()
      ensures request.None? ==> status == 400 && token == None && userTokens == old(userTokens)
      ensures request.Some? ==>
                && status == 200
                && token == Some(Token(request.value.username, |old(userTokens)|))
                && token.value !in old(userTokens)
                && userTokens == old(userTokens)[token.value := request.value.username]
                && |userTokens| == |old(userTokens)| + 1
    {
      if request.None? {
        return 400, None;
      }
      var t := "token_" + request.value.username + "_" + Itoa(|userTokens|);
      TokenIsNew(userTokens, issued, request.value.username);
      issued := issued[t := |userTokens|];
      userTokens := userTokens[t := request.value.username];
      status, token := 200, Some(t);
    }
  }

  /** The end of AddToCart: the first entry for the item takes the new
      quantity (the old one plus the added one), or a new entry is
      appended. */
  method Put(cartItems: seq<CartItem>, item: ItemData, quantity: int, newQuantity: int) returns (updated: seq<CartItem>)
    requires newQuantity == FirstQuantity(cartItems, item.id) + quantity
    ensures updated == PutInCart(cartItems, item, quantity)
  {
    var itemFound;
    updated, itemFound := SetQuantity(cartItems, item.id, newQuantity);
    if !itemFound {
      updated := updated + [CartItem(quantity, ItemView(Some(Itoa(item.id)), Some(item.name)))];
    }
  }

  /** The loop that updates the first entry for the item in place; `found`
      says whether there was one. */
  method SetQuantity(cart: seq<CartItem>, id: int, quantity: int) returns (updated: seq<CartItem>, found: bool)
    ensures found <==> FirstEntry(cart, id) < |cart|
    ensures found ==> updated == cart[FirstEntry(cart, id) := cart[FirstEntry(cart, id)].(quantity := quantity)]
    ensures !found ==> updated == cart
  {
    updated := cart;
    var i := 0;
    while i < |cart|
      invariant 0 <= i <= |cart|
      invariant forall j :: 0 <= j < i ==> !Refers(cart[j], id)
    {
      var entry := cart[i];
      if entry.item.id.Some? && Atoi(entry.item.id.value) == Some(id) {
        FirstEntryAt(cart, id, i);
        updated := cart[i := entry.(quantity := quantity)];
        return updated, true;
      }
      i := i + 1;
    }
    FirstEntryAt(cart, id, i);
    found := false;
  }

  /** The loop of RemoveFromCart that builds the new cart. */
  method RemoveFrom(cart: seq<CartItem>, id: int, quantity: int) returns (newCartItems: seq<CartItem>)
    ensures newCartItems == Removed(cart, id, quantity)
  {
    newCartItems := [];
    var i := 0;
    while i < |cart|
      invariant 0 <= i <= |cart|
      invariant newCartItems == Removed(cart[..i], id, quantity)
    {
      var cartItem := cart[i];
      if cartItem.item.id.Some? {
        var parsed := Atoi(cartItem.item.id.value);
        if parsed.Some? && parsed.value == id {
          var newQuantity := cartItem.quantity - quantity;
          if newQuantity > 0 {
            newCartItems := newCartItems + [cartItem.(quantity := newQuantity)];
          }
        } else {
          newCartItems := newCartItems + [cartItem];
        }
      } else {
        newCartItems := newCartItems + [cartItem];
      }
      assert cart[..i + 1][..i] == cart[..i];
      i := i + 1;
    }
    assert cart[..i] == cart;
  }
}
