/** The guest cart kept in browser storage under 'shopping_cart', the
    persistent-cart lookups it needs, and the login-time merge that replays the
    guest cart into the customer's persistent cart. */
module CartService {
  import opened Wrappers
  import opened Types
  import opened Storage

  /** Two lines are the same line when product id and variant selection agree
      (the variant selections are compared through their JSON text, which for
      these records is equality of the values, `undefined` included). */
  predicate SameKey(item: LocalCartItem, productId: int, variants: Option<seq<ProductVariant>>) {
    item.productId == productId && item.selectedVariants == variants
  }

  ghost predicate UniqueKeys(items: seq<LocalCartItem>) {
    forall i, j :: 0 <= i < j < |items| ==> !SameKey(items[i], items[j].productId, items[j].selectedVariants)
  }

  ghost predicate HasKey(items: seq<LocalCartItem>, productId: int, variants: Option<seq<ProductVariant>>) {
    exists k :: 0 <= k < |items| && SameKey(items[k], productId, variants)
  }

  /** `findIndex`: the first line with the key, or -1. */
  function FirstMatch(items: seq<LocalCartItem>, productId: int, variants: Option<seq<ProductVariant>>): (r: int)
    ensures -1 <= r < |items|
    ensures r >= 0 ==> SameKey(items[r], productId, variants)
    ensures r >= 0 ==> forall k :: 0 <= k < r ==> !SameKey(items[k], productId, variants)
    ensures r == -1 <==> !HasKey(items, productId, variants)
  {
    if |items| == 0 then -1
    else if SameKey(items[0], productId, variants) then 0
    else
      var r := FirstMatch(items[1..], productId, variants);
      assert forall k :: 1 <= k < |items| ==> items[k] == items[1..][k - 1];
      if r == -1 then -1 else r + 1
  }

  // ---------- Sums over the lines ----------

  function LineQuantity(item: LocalCartItem): int { item.quantity }

  function LineAmount(item: LocalCartItem): int { item.price * item.quantity }

  function SumOf(items: seq<LocalCartItem>, f: LocalCartItem -> int): int {
    if items == [] then 0 else f(items[0]) + SumOf(items[1..], f)
  }

  /** The number of units in the cart: the sum of the quantities. */
  function ItemCount(items: seq<LocalCartItem>): (n: int)
    ensures items == [] ==> n == 0
    ensures |items| == 1 ==> n == items[0].quantity
  {
    assert |items| == 1 ==> SumOf(items[1..], LineQuantity) == 0;
    SumOf(items, LineQuantity)
  }

  /** The cart value: the sum over the lines of price times quantity. */
  function Total(items: seq<LocalCartItem>): (t: int)
    ensures items == [] ==> t == 0
    ensures |items| == 1 ==> t == items[0].price * items[0].quantity
  {
    assert |items| == 1 ==> SumOf(items[1..], LineAmount) == 0;
    SumOf(items, LineAmount)
  }

  /** A sum of non-negative terms is non-negative and at least each term. */
  lemma {:induction false} SumOfNonNegative(items: seq<LocalCartItem>, f: LocalCartItem -> int)
    requires forall k :: 0 <= k < |items| ==> f(items[k]) >= 0
    ensures SumOf(items, f) >= 0
    ensures forall k :: 0 <= k < |items| ==> SumOf(items, f) >= f(items[k])
  {
    if items != [] {
      assert forall k :: 1 <= k < |items| ==> items[k] == items[1..][k - 1];
      SumOfNonNegative(items[1..], f);
    }
  }

  /** With no negative quantity, the unit count is at least every line's quantity. */
  lemma ItemCountBounds(items: seq<LocalCartItem>)
    requires forall k :: 0 <= k < |items| ==> items[k].quantity >= 0
    ensures ItemCount(items) >= 0
    ensures forall k :: 0 <= k < |items| ==> ItemCount(items) >= items[k].quantity
  {
    SumOfNonNegative(items, LineQuantity);
  }

  /** With no negative price or quantity, the cart value is never negative. */
  lemma TotalNonNegative(items: seq<LocalCartItem>)
    requires forall k :: 0 <= k < |items| ==> items[k].price >= 0 && items[k].quantity >= 0
    ensures Total(items) >= 0
  {
    assert forall k :: 0 <= k < |items| ==> LineAmount(items[k]) >= 0;
    SumOfNonNegative(items, LineAmount);
  }

  lemma {:induction false} SumConcat(a: seq<LocalCartItem>, b: seq<LocalCartItem>, f: LocalCartItem -> int)
    ensures SumOf(a + b, f) == SumOf(a, f) + SumOf(b, f)
  {
    if a == [] {
      assert a + b == b;
    } else {
      assert (a + b)[1..] == a[1..] + b;
      SumConcat(a[1..], b, f);
    }
  }

  /** Replacing line i by x changes a sum by the difference of the two lines. */
  lemma SumReplace(a: seq<LocalCartItem>, i: nat, x: LocalCartItem, f: LocalCartItem -> int)
    requires i < |a|
    ensures SumOf(a[i := x], f) == SumOf(a, f) - f(a[i]) + f(x)
  {
    var pre, post := a[..i], a[i + 1..];
    assert a == (pre + [a[i]]) + post;
    assert a[i := x] == (pre + [x]) + post;
    SumConcat(pre + [a[i]], post, f);
    SumConcat(pre, [a[i]], f);
    SumConcat(pre + [x], post, f);
    SumConcat(pre, [x], f);
  }

  /** Dropping line i takes that line out of a sum. */
  lemma SumDelete(a: seq<LocalCartItem>, i: nat, f: LocalCartItem -> int)
    requires i < |a|
    ensures SumOf(a[..i] + a[i + 1..], f) == SumOf(a, f) - f(a[i])
  {
    assert a == a[..i] + [a[i]] + a[i + 1..];
    assert [a[i]][1..] == [];
    SumConcat(a[..i] + [a[i]], a[i + 1..], f);
    SumConcat(a[..i], [a[i]], f);
    SumConcat(a[..i], a[i + 1..], f);
  }

  // ---------- The guest-cart operations as functions of the stored lines ----------

  /** The unit price stored for a new line: the discount price when it is
      truthy (present and not 0), else the list price. */
  function UnitPrice(product: Product): (r: int)
    ensures r == product.price || Some(r) == product.discountPrice
    ensures product.discountPrice.None? || product.discountPrice == Some(0) ==> r == product.price
    ensures r != product.price ==> product.discountPrice == Some(r) && r != 0
  {
    if product.discountPrice.Some? && product.discountPrice.value != 0 then product.discountPrice.value else product.price
  }

  /** The lines after `addToSessionCart`. */
  function Added(items: seq<LocalCartItem>, product: Product, quantity: int, variants: Option<seq<ProductVariant>>): (r: seq<LocalCartItem>)
    ensures HasKey(items, product.id, variants) ==> |r| == |items|
    ensures HasKey(items, product.id, variants) ==>
      var i := FirstMatch(items, product.id, variants);
      r[i] == items[i].(quantity := items[i].quantity + quantity) &&
      forall k :: 0 <= k < |items| && k != i ==> r[k] == items[k]
    ensures !HasKey(items, product.id, variants) ==>
      |r| == |items| + 1 && r[..|items|] == items &&
      r[|items|] == LocalCartItem(product.id, quantity, variants, UnitPrice(product))
    ensures forall k :: 0 <= k < |items| && !SameKey(items[k], product.id, variants) ==> r[k] == items[k]
    ensures HasKey(r, product.id, variants)
    ensures UniqueKeys(items) ==> UniqueKeys(r)
    ensures ItemCount(r) == ItemCount(items) + quantity
    ensures Total(r) == Total(items) + quantity * (if HasKey(items, product.id, variants)
                                                   then items[FirstMatch(items, product.id, variants)].price
                                                   else UnitPrice(product))
  {
    var i := FirstMatch(items, product.id, variants);
    if i >= 0 then
      var line := items[i].(quantity := items[i].quantity + quantity);
      SumReplace(items, i, line, LineQuantity);
      SumReplace(items, i, line, LineAmount);
      assert LineAmount(line) - LineAmount(items[i]) == quantity * items[i].price;
      assert SameKey(items[i := line][i], product.id, variants);
      items[i := line]
    else
      var line := LocalCartItem(product.id, quantity, variants, UnitPrice(product));
      SumConcat(items, [line], LineQuantity);
      SumConcat(items, [line], LineAmount);
      assert (items + [line])[|items|] == line;
      items + [line]
  }

  /** The lines after `updateSessionCartItem` when the key is present at the
      first match: the line is removed when the quantity is zero or less, and
      otherwise its quantity is set. */
  function Updated(items: seq<LocalCartItem>, productId: int, quantity: int, variants: Option<seq<ProductVariant>>): (r: seq<LocalCartItem>)
    requires HasKey(items, productId, variants)
    ensures var i := FirstMatch(items, productId, variants);
      if quantity <= 0 then
        r == items[..i] + items[i + 1..] && ItemCount(r) == ItemCount(items) - items[i].quantity
      else
        |r| == |items| && r[i] == items[i].(quantity := quantity) &&
        (forall k :: 0 <= k < |items| && k != i ==> r[k] == items[k]) &&
        ItemCount(r) == ItemCount(items) - items[i].quantity + quantity
    ensures UniqueKeys(items) ==> UniqueKeys(r)
    ensures UniqueKeys(items) && quantity <= 0 ==> !HasKey(r, productId, variants)
  {
    var i := FirstMatch(items, productId, variants);
    if quantity <= 0 then
      SumDelete(items, i, LineQuantity);
      var r := items[..i] + items[i + 1..];
      assert forall k :: 0 <= k < |r| ==> r[k] == items[if k < i then k else k + 1];
      r
    else
      SumReplace(items, i, items[i].(quantity := quantity), LineQuantity);
      items[i := items[i].(quantity := quantity)]
  }

  /** The lines after `removeFromSessionCart`: every line with the key dropped,
      the others kept in order. */
  function Removed(items: seq<LocalCartItem>, productId: int, variants: Option<seq<ProductVariant>>): (r: seq<LocalCartItem>)
    ensures |r| <= |items|
    ensures forall x :: x in r <==> x in items && !SameKey(x, productId, variants)
    ensures !HasKey(r, productId, variants)
    ensures UniqueKeys(items) ==> UniqueKeys(r)
  {
    if items == [] then []
    else
      var rest := Removed(items[1..], productId, variants);
      assert forall x :: x in items <==> x == items[0] || x in items[1..];
      if SameKey(items[0], productId, variants) then rest
      else
        assert UniqueKeys(items) ==> forall x :: x in rest ==> !SameKey(items[0], x.productId, x.selectedVariants) by {
          if UniqueKeys(items) {
            forall x | x in rest ensures !SameKey(items[0], x.productId, x.selectedVariants) {
              var j :| 0 <= j < |items[1..]| && items[1..][j] == x;
              assert items[j + 1] == x;
            }
          }
        }
        assert UniqueKeys(items) ==> UniqueKeys(items[1..]) by {
          if UniqueKeys(items) {
            forall i, j | 0 <= i < j < |items[1..]|
              ensures !SameKey(items[1..][i], items[1..][j].productId, items[1..][j].selectedVariants)
            {
              assert items[1..][i] == items[i + 1] && items[1..][j] == items[j + 1];
            }
          }
        }
        var r := [items[0]] + rest;
        assert forall k :: 1 <= k < |r| ==> r[k] == rest[k - 1] && r[k] in rest;
        r
  }

  /** Removal keeps order and multiplicity: removing from a concatenation
      concatenates the removals, so with the membership clause above a removal
      is the in-order filter of the lines without the key. */
  lemma {:induction false} RemovedConcat(a: seq<LocalCartItem>, b: seq<LocalCartItem>, productId: int, variants: Option<seq<ProductVariant>>)
    ensures Removed(a + b, productId, variants) == Removed(a, productId, variants) + Removed(b, productId, variants)
  {
    if a == [] {
      assert a + b == b;
    } else {
      assert (a + b)[1..] == a[1..] + b;
      assert (a + b)[0] == a[0];
      RemovedConcat(a[1..], b, productId, variants);
    }
  }

  lemma UniqueTail(items: seq<LocalCartItem>)
    requires items != [] && UniqueKeys(items)
    ensures UniqueKeys(items[1..])
  {
    var tail := items[1..];
    forall a, b | 0 <= a < b < |tail|
      ensures !SameKey(tail[a], tail[b].productId, tail[b].selectedVariants)
    {
      assert tail[a] == items[a + 1] && tail[b] == items[b + 1];
    }
  }

  /** On a cart whose keys are unique, removing a present key splices out
      its first (and only) line. */
  lemma {:induction false} RemovedIsSplice(items: seq<LocalCartItem>, productId: int, variants: Option<seq<ProductVariant>>)
    requires UniqueKeys(items) && HasKey(items, productId, variants)
    ensures var i := FirstMatch(items, productId, variants);
      Removed(items, productId, variants) == items[..i] + items[i + 1..]
  {
    var i := FirstMatch(items, productId, variants);
    var tail := items[1..];
    if i == 0 {
      assert !HasKey(tail, productId, variants) by {
        forall k | 0 <= k < |tail| ensures !SameKey(tail[k], productId, variants) {
          assert tail[k] == items[k + 1];
        }
      }
      RemovedWithoutKey(tail, productId, variants);
    } else {
      UniqueTail(items);
      assert SameKey(tail[i - 1], productId, variants);
      assert FirstMatch(tail, productId, variants) == i - 1;
      RemovedIsSplice(tail, productId, variants);
      RemovedCons(items, productId, variants);
      SpliceCons(items, i);
    }
  }

  lemma RemovedCons(items: seq<LocalCartItem>, productId: int, variants: Option<seq<ProductVariant>>)
    requires items != [] && !SameKey(items[0], productId, variants)
    ensures Removed(items, productId, variants) == [items[0]] + Removed(items[1..], productId, variants)
  {
  }

  lemma SpliceCons(items: seq<LocalCartItem>, i: int)
    requires 0 < i < |items|
    ensures items[..i] + items[i + 1..] == [items[0]] + (items[1..][..i - 1] + items[1..][i..])
  {
  }

  /** On a cart whose keys are unique, removing a present key is the same as
      updating its quantity to zero. */
  lemma RemoveIsUpdateToZero(items: seq<LocalCartItem>, productId: int, variants: Option<seq<ProductVariant>>)
    requires UniqueKeys(items) && HasKey(items, productId, variants)
    ensures Removed(items, productId, variants) == Updated(items, productId, 0, variants)
  {
    RemovedIsSplice(items, productId, variants);
  }

  /** Removing a key that is absent changes nothing. */
  lemma {:induction false} RemovedWithoutKey(items: seq<LocalCartItem>, productId: int, variants: Option<seq<ProductVariant>>)
    requires !HasKey(items, productId, variants)
    ensures Removed(items, productId, variants) == items
  {
    if items != [] {
      assert !SameKey(items[0], productId, variants);
      assert !HasKey(items[1..], productId, variants) by {
        forall k | 0 <= k < |items[1..]| ensures !SameKey(items[1..][k], productId, variants) {
          assert items[1..][k] == items[k + 1];
        }
      }
      RemovedWithoutKey(items[1..], productId, variants);
      assert items == [items[0]] + items[1..];
    }
  }

  // ---------- Persistent cart ----------

  /** The synthetic cart the merge returns when the customer has none yet. */
  function EmptyCart(userId: int): Cart {
    Cart(0, userId, [], 0)
  }

  /** `getUserCart`: a 404 means "no cart yet" and is not an error. */
  function GetUserCart(answer: Result<Cart, ApiError>): (r: Result<Option<Cart>, string>)
    ensures answer.Ok? ==> r == Ok(Some(answer.value))
    ensures answer.Err? ==> (r == Ok(None) <==> answer.error.status == Some(404))
    ensures r.Err? ==> r.error == MessageOr(answer.error, "Failed to fetch cart")
  {
    NotFoundAsNull(answer, "Failed to fetch cart")
  }

  /** `addToUserCart` for one line. */
  function AddToUserCart(answer: Result<Cart, ApiError>): Result<Cart, string> {
    Rethrow(answer, "Failed to add item to cart")
  }

  /** The request body of one `addToUserCart` call. */
  datatype AddRequest = AddRequest(userId: int, productId: int, quantity: int, selectedVariants: Option<seq<ProductVariant>>)

  function Requests(userId: int, items: seq<LocalCartItem>): (r: seq<AddRequest>)
    ensures |r| == |items|
  {
    seq(|items|, k requires 0 <= k < |items| => AddRequest(userId, items[k].productId, items[k].quantity, items[k].selectedVariants))
  }

  /** The index of the first failing answer among the first n add calls, or n
      when all n succeed. */
  function FirstFailure(answers: nat -> Result<Cart, ApiError>, n: nat): (k: nat)
    ensures k <= n
    ensures forall j :: 0 <= j < k ==> answers(j).Ok?
    ensures k < n ==> answers(k).Err?
  {
    if n == 0 then 0
    else
      var k := FirstFailure(answers, n - 1);
      if k < n - 1 then k else if answers(n - 1).Err? then n - 1 else n
  }

  const MergeFailed := "Failed to merge carts"

  /** The final `getUserCart(userId) || {synthetic cart}` of the merge, seen
      through the merge's own catch: every error thrown inside the merge is a
      plain `Error` without a response, so the merge's error text is always
      the fallback. */
  function MergedCart(userId: int, answer: Result<Cart, ApiError>): (r: Result<Cart, string>)
    ensures answer.Ok? ==> r == Ok(answer.value)
    ensures answer.Err? && answer.error.status == Some(404) ==> r == Ok(EmptyCart(userId))
    ensures answer.Err? && answer.error.status != Some(404) ==> r == Err(MergeFailed)
  {
    match GetUserCart(answer)
    case Ok(Some(c)) => Ok(c)
    case Ok(None) => Ok(EmptyCart(userId))
    case Err(_) => Err(MergeFailed)
  }

  class CartService {
    const local: LocalStorage

    constructor (local: LocalStorage)
      ensures this.local == local
    {
      this.local := local;
    }

    /** `getSessionCart`: never fails; an absent or unparseable key reads as the
        empty cart. */
    function GetSessionCart(): (items: seq<LocalCartItem>)
      reads local
      ensures local.shoppingCart.Saved? ==> items == local.shoppingCart.value
      ensures local.shoppingCart == Absent || local.shoppingCart == Unparseable ==> items == []
    {
      match local.shoppingCart
      case Saved(items) => items
      case _ => []
    }

    /** `saveSessionCart`. `accepted` says whether the browser took the write;
        a refused write (quota, storage disabled) is only logged, and the key
        keeps its old value. */
    method SaveSessionCart(items: seq<LocalCartItem>, accepted: bool)
      modifies local`shoppingCart
      ensures accepted ==> local.shoppingCart == Saved(items)
      ensures !accepted ==> local.shoppingCart == old(local.shoppingCart)
    {
      if accepted {
        local.shoppingCart := Saved(items);
      }
    }

    method AddToSessionCart(product: Product, quantity: int := 1, variants: Option<seq<ProductVariant>> := None,
                            accepted: bool := true)
      modifies local`shoppingCart
      ensures accepted ==> local.shoppingCart == Saved(Added(old(GetSessionCart()), product, quantity, variants))
      ensures !accepted ==> local.shoppingCart == old(local.shoppingCart)
    {
      var items := GetSessionCart();
      var existingIndex := FirstMatch(items, product.id, variants);
      if existingIndex >= 0 {
        items := items[existingIndex := items[existingIndex].(quantity := items[existingIndex].quantity + quantity)];
      } else {
        items := items + [LocalCartItem(product.id, quantity, variants, UnitPrice(product))];
      }
      SaveSessionCart(items, accepted);
    }

    method UpdateSessionCartItem(productId: int, quantity: int, variants: Option<seq<ProductVariant>> := None,
                                 accepted: bool := true)
      modifies local`shoppingCart
      ensures !HasKey(old(GetSessionCart()), productId, variants) || !accepted ==> local.shoppingCart == old(local.shoppingCart)
      ensures HasKey(old(GetSessionCart()), productId, variants) && accepted ==>
        local.shoppingCart == Saved(Updated(old(GetSessionCart()), productId, quantity, variants))
    {
      var items := GetSessionCart();
      var index := FirstMatch(items, productId, variants);
      if index >= 0 {
        if quantity <= 0 {
          items := items[..index] + items[index + 1..];
        } else {
          items := items[index := items[index].(quantity := quantity)];
        }
        SaveSessionCart(items, accepted);
      }
    }

    method RemoveFromSessionCart(productId: int, variants: Option<seq<ProductVariant>> := None, accepted: bool := true)
      modifies local`shoppingCart
      ensures accepted ==> local.shoppingCart == Saved(Removed(old(GetSessionCart()), productId, variants))
      ensures !accepted ==> local.shoppingCart == old(local.shoppingCart)
    {
      var items := GetSessionCart();
      SaveSessionCart(Removed(items, productId, variants), accepted);
    }

    method ClearSessionCart()
      modifies local`shoppingCart
      ensures local.shoppingCart == Absent && GetSessionCart() == []
    {
      local.shoppingCart := Absent;
    }

    /** `mergeSessionCartWithUserCart`. The k-th add call (from 0) is answered by
        `addAnswer(k)`; the one `getUserCart` call by `cartAnswer`. */
    method MergeSessionCartWithUserCart(userId: int, addAnswer: nat -> Result<Cart, ApiError>, cartAnswer: Result<Cart, ApiError>)
      returns (result: Result<Cart, string>, requests: seq<AddRequest>)
      modifies local`shoppingCart
      // An empty guest cart: no add call, storage untouched, the persisted cart or the synthetic one.
      ensures old(GetSessionCart()) == [] ==>
        requests == [] && local.shoppingCart == old(local.shoppingCart) && result == MergedCart(userId, cartAnswer)
      // The k-th add fails: calls up to and including k were issued, the guest cart is intact.
      ensures var items := old(GetSessionCart()); var k := FirstFailure(addAnswer, |items|);
        items != [] && k < |items| ==>
          requests == Requests(userId, items[..k + 1]) && local.shoppingCart == old(local.shoppingCart) &&
          result == Err(MergeFailed)
      // Every add succeeds: one call per line in stored order, then the guest cart is cleared.
      ensures var items := old(GetSessionCart());
        items != [] && FirstFailure(addAnswer, |items|) == |items| ==>
          requests == Requests(userId, items) && local.shoppingCart == Absent &&
          result == MergedCart(userId, cartAnswer)
    {
      var sessionItems := GetSessionCart();
      requests := [];
      if |sessionItems| == 0 {
        result := MergedCart(userId, cartAnswer);
        return;
      }
      var i := 0;
      while i < |sessionItems|
        invariant 0 <= i <= |sessionItems|
        invariant requests == Requests(userId, sessionItems[..i])
        invariant forall j :: 0 <= j < i ==> addAnswer(j).Ok?
        invariant local.shoppingCart == old(local.shoppingCart)
      {
        var item := sessionItems[i];
        requests := requests + [AddRequest(userId, item.productId, item.quantity, item.selectedVariants)];
        assert requests == Requests(userId, sessionItems[..i + 1]);
        var added := AddToUserCart(addAnswer(i));
        if added.Err? {
          result := Err(MergeFailed);
          assert FirstFailure(addAnswer, |sessionItems|) == i;
          return;
        }
        i := i + 1;
      }
      assert sessionItems[..i] == sessionItems;
      ClearSessionCart();
      result := MergedCart(userId, cartAnswer);
    }

    /** `getCartItemCount`: the guest cart's unit count, whatever `userId` is. */
    function GetCartItemCount(userId: Option<int> := None): (n: int)
      reads local
      ensures n == ItemCount(GetSessionCart())
      ensures GetSessionCart() == [] ==> n == 0
    {
      if userId.Some? && userId.value != 0 then
        ItemCount(GetSessionCart())
      else
        ItemCount(GetSessionCart())
    }

    /** `getCartTotal`: price times quantity, summed over the guest cart. */
    function GetCartTotal(): (t: int)
      reads local
      ensures GetSessionCart() == [] ==> t == 0
    {
      Total(GetSessionCart())
    }
  }

  /** A merge right after a merge whose adds all succeeded issues no call and
      leaves storage as the first merge left it: cleared, or untouched when
      the guest cart was already empty. */
  method MergeTwice(cart: CartService, userId: int, addAnswer: nat -> Result<Cart, ApiError>,
                    firstAnswer: Result<Cart, ApiError>, secondAnswer: Result<Cart, ApiError>)
    returns (second: Result<Cart, string>, secondRequests: seq<AddRequest>)
    modifies cart.local`shoppingCart
    ensures FirstFailure(addAnswer, |old(cart.GetSessionCart())|) == |old(cart.GetSessionCart())| ==>
      secondRequests == [] && second == MergedCart(userId, secondAnswer) &&
      cart.local.shoppingCart == (if old(cart.GetSessionCart()) == [] then old(cart.local.shoppingCart) else Absent)
  {
    var first, firstRequests := cart.MergeSessionCartWithUserCart(userId, addAnswer, firstAnswer);
    second, secondRequests := cart.MergeSessionCartWithUserCart(userId, addAnswer, secondAnswer);
  }
}
