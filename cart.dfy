/** The booking cart of the web client (src/contexts/CartContext.tsx):
    a record from model id to the chosen model and how many of its items
    are wanted. The React state becomes a class whose `items` field each
    operation reassigns; the model payload is the stored model record. */
module CartContext {
  import opened Wrappers
  import opened Records

  /** `CartItem`. The model is absent only for an entry that
      `updateQuantity` created for an id that was not in the cart
      (`{ ...undefined, quantity }`). */
  datatype CartItem = CartItem(model: Option<EqModel>, quantity: int)

  type Cart = map<int, CartItem>

  // ---------------------------------------------------------------------------
  // The operations as functions of the previous record

  /** `addToCart`: quantity one more than before (`?.quantity || 0`), the
      given model stored, other keys untouched. */
  function Added(cart: Cart, model: EqModel): (r: Cart)
    ensures model.id in r && r[model.id].model == Some(model)
    ensures r[model.id].quantity == (if model.id in cart then cart[model.id].quantity else 0) + 1
    ensures r.Keys == cart.Keys + {model.id}
    ensures forall k :: k in cart && k != model.id ==> r[k] == cart[k]
  {
    var before := if model.id in cart then cart[model.id].quantity else 0;
    cart[model.id := CartItem(Some(model), before + 1)]
  }

  /** `removeFromCart`: one fewer while more than one is wanted, otherwise
      the key goes; an absent key changes nothing. */
  function Removed(cart: Cart, modelId: int): (r: Cart)
    ensures modelId !in cart ==> r == cart
    ensures modelId in cart && cart[modelId].quantity > 1 ==>
      r == cart[modelId := cart[modelId].(quantity := cart[modelId].quantity - 1)]
    ensures modelId in cart && cart[modelId].quantity <= 1 ==> r == cart - {modelId}
  {
    if modelId in cart && cart[modelId].quantity > 1 then
      cart[modelId := cart[modelId].(quantity := cart[modelId].quantity - 1)]
    else
      cart - {modelId}
  }

  /** `updateQuantity`: a quantity of zero or less removes the key; a
      positive one replaces the quantity and keeps the rest of the entry. */
  function QuantityUpdated(cart: Cart, modelId: int, quantity: int): (r: Cart)
    ensures quantity <= 0 ==> r == cart - {modelId}
    ensures quantity > 0 ==> modelId in r && r[modelId].quantity == quantity
    ensures quantity > 0 && modelId in cart ==> r[modelId].model == cart[modelId].model
    ensures quantity > 0 && modelId !in cart ==> r[modelId].model.None?
    ensures quantity > 0 ==> forall k :: k in cart && k != modelId ==> k in r && r[k] == cart[k]
    ensures quantity > 0 ==> r.Keys == cart.Keys + {modelId}
  {
    if quantity <= 0 then cart - {modelId}
    else
      var model := if modelId in cart then cart[modelId].model else None;
      cart[modelId := CartItem(model, quantity)]
  }

  /** Every quantity a cart can hold is positive: the initial record is
      empty and each operation keeps this. */
  predicate Positive(cart: Cart)
  {
    forall k :: k in cart ==> cart[k].quantity >= 1
  }

  lemma OperationsKeepPositive(cart: Cart, model: EqModel, modelId: int, quantity: int)
    requires Positive(cart)
    ensures Positive(Added(cart, model))
    ensures Positive(Removed(cart, modelId))
    ensures Positive(QuantityUpdated(cart, modelId, quantity))
  {
  }

  /** Adding a model and then removing it gives the previous cart back,
      provided the entry (if any) already held that same model. */
  lemma AddThenRemoveRestores(cart: Cart, model: EqModel)
    requires Positive(cart)
    requires model.id in cart ==> cart[model.id].model == Some(model)
    ensures Removed(Added(cart, model), model.id) == cart
  {
    if model.id in cart {
      assert cart[model.id] == CartItem(Some(model), cart[model.id].quantity);
    }
  }

  // ---------------------------------------------------------------------------
  // The total of the quantities

  /** Some element of a non-empty set; it also serves the methods below
      as the witness their `:|` choices need. */
  ghost function Pick<K>(s: set<K>): (k: K)
    requires s != {}
    ensures k in s
  {
    var k :| k in s; k
  }

  /** The smallest key of a non-empty key set. */
  ghost function MinKey(keys: set<int>): (m: int)
    requires keys != {}
    ensures m in keys && forall k :: k in keys ==> m <= k
  {
    var x := Pick(keys);
    if keys == {x} then x
    else
      assert forall k :: k in keys ==> k == x || k in keys - {x};
      var rest := MinKey(keys - {x});
      if x < rest then x else rest
  }

  /** The sum of the quantities, taken key by key from the smallest. */
  ghost function Total(cart: Cart): int
    decreases |cart.Keys|
  {
    if cart == map[] then 0
    else
      var k := MinKey(cart.Keys);
      assert |(cart - {k}).Keys| < |cart.Keys| by {
        assert (cart - {k}).Keys < cart.Keys;
      }
      cart[k].quantity + Total(cart - {k})
  }

  /** Any key can be taken out of the sum first. */
  lemma {:induction false} TotalRemove(cart: Cart, k: int)
    requires k in cart
    ensures Total(cart) == cart[k].quantity + Total(cart - {k})
    decreases |cart.Keys|
  {
    var j := MinKey(cart.Keys);
    if j != k {
      assert (cart - {j}).Keys < cart.Keys;
      assert (cart - {k}).Keys < cart.Keys;
      TotalRemove(cart - {j}, k);
      TotalRemove(cart - {k}, j);
      assert cart - {j} - {k} == cart - {k} - {j};
    }
  }

  /** `getTotalItems` rises by exactly one after `addToCart`. */
  lemma AddRaisesTotalByOne(cart: Cart, model: EqModel)
    ensures Total(Added(cart, model)) == Total(cart) + 1
  {
    var r := Added(cart, model);
    TotalRemove(r, model.id);
    assert r - {model.id} == cart - {model.id};
    if model.id in cart {
      TotalRemove(cart, model.id);
    } else {
      assert cart - {model.id} == cart;
    }
  }

  /** On a cart of positive quantities, `removeFromCart` of a present key
      lowers the total by exactly one when more than one was wanted, and
      by the whole quantity otherwise. */
  lemma RemoveLowersTotal(cart: Cart, modelId: int)
    requires modelId in cart
    ensures Total(Removed(cart, modelId)) == Total(cart) - (if cart[modelId].quantity > 1 then 1 else cart[modelId].quantity)
  {
    TotalRemove(cart, modelId);
    var r := Removed(cart, modelId);
    if cart[modelId].quantity > 1 {
      TotalRemove(r, modelId);
      assert r - {modelId} == cart - {modelId};
    }
  }

  // ---------------------------------------------------------------------------
  // The provider's state

  class CartProvider {
    var items: Cart

    /** `useState({})`. */
    constructor ()
      ensures items == map[]
    {
      items := map[];
    }

    method AddToCart(model: EqModel)
      modifies this
      ensures items == Added(old(items), model)
    {
      var before := if model.id in items then items[model.id].quantity else 0;
      items := items[model.id := CartItem(Some(model), before + 1)];
    }

    /** The copy-then-decrement-or-delete update. */
    method RemoveFromCart(modelId: int)
      modifies this
      ensures items == Removed(old(items), modelId)
    {
      var newCart := items;
      if modelId in newCart && newCart[modelId].quantity > 1 {
        newCart := newCart[modelId := newCart[modelId].(quantity := newCart[modelId].quantity - 1)];
      } else {
        newCart := newCart - {modelId};
      }
      items := newCart;
    }

    method UpdateQuantity(modelId: int, quantity: int)
      modifies this
      ensures items == QuantityUpdated(old(items), modelId, quantity)
    {
      if quantity <= 0 {
        items := items - {modelId};
      } else {
        var model := if modelId in items then items[modelId].model else None;
        items := items[modelId := CartItem(model, quantity)];
      }
    }

    method ClearCart()
      modifies this
      ensures items == map[]
    {
      items := map[];
    }

    /** `getTotalItems`: the reduce over the entries. */
    method GetTotalItems() returns (sum: int)
      ensures sum == Total(items)
    {
      sum := 0;
      var rest := items;
      while rest != map[]
        invariant sum + Total(rest) == Total(items)
        decreases |rest.Keys|
      {
        ghost var w := Pick(rest.Keys);
        var k :| k in rest;
        TotalRemove(rest, k);
        sum := sum + rest[k].quantity;
        assert (rest - {k}).Keys < rest.Keys;
        rest := rest - {k};
      }
    }

    /** `getCartItems`: `Object.values`, one element per key, in ascending
        key order as for integer keys. */
    method GetCartItems() returns (values: seq<CartItem>)
      ensures |values| == |items.Keys|
      ensures exists keys: seq<int> :: InKeyOrder(items, keys, values)
    {
      var keys;
      keys, values := ValuesInKeyOrder(items);
    }
  }

  /** `values` lists `cart` under the strictly ascending `keys`, which are
      exactly its keys. */
  ghost predicate InKeyOrder(cart: Cart, keys: seq<int>, values: seq<CartItem>)
  {
    && |keys| == |values|
    && (forall i, j :: 0 <= i < j < |keys| ==> keys[i] < keys[j])
    && (forall k :: k in cart <==> k in keys)
    && (forall j :: 0 <= j < |keys| ==> keys[j] in cart && values[j] == cart[keys[j]])
  }

  method ValuesInKeyOrder(cart: Cart) returns (keys: seq<int>, values: seq<CartItem>)
    ensures InKeyOrder(cart, keys, values)
    ensures |values| == |cart.Keys|
  {
    values := [];
    keys := [];
    var rest := cart.Keys;
    while rest != {}
      invariant rest <= cart.Keys
      invariant |keys| == |values| && |keys| + |rest| == |cart.Keys|
      invariant forall j :: 0 <= j < |keys| ==> keys[j] in cart && keys[j] !in rest && values[j] == cart[keys[j]]
      invariant forall k :: k in cart && k !in rest ==> k in keys
      invariant forall i, j :: 0 <= i < j < |keys| ==> keys[i] < keys[j]
      invariant forall i, k :: 0 <= i < |keys| && k in rest ==> keys[i] < k
      decreases |rest|
    {
      var k := Smallest(rest);
      keys := keys + [k];
      values := values + [cart[k]];
      rest := rest - {k};
    }
  }

  /** The smallest element of a key set, found by a scan. */
  method Smallest(keys: set<int>) returns (m: int)
    requires keys != {}
    ensures m in keys && forall k :: k in keys ==> m <= k
  {
    ghost var w := Pick(keys);
    m :| m in keys;
    var rest := keys - {m};
    while rest != {}
      invariant rest <= keys && m in keys
      invariant forall k :: k in keys && k !in rest ==> m <= k
      decreases |rest|
    {
      ghost var w := Pick(rest);
      var x :| x in rest;
      if x < m {
        m := x;
      }
      rest := rest - {x};
    }
  }
}
