/** The shopping cart: a list of lines, each a snapshot of a sweet plus the
    quantity wanted, reconciled against the stock the snapshot carries, and
    the open/closed flag of the cart panel. The selectors sum the lines. */
module CartStore {
  import opened Types
  import Seqs

  /** A line of the cart: the sweet as it was when added, and how many are wanted. */
  datatype CartItem = CartItem(sweet: Sweet, quantityInCart: int)

  /** The key that identifies a line. */
  function LineId(item: CartItem): int
  {
    item.sweet.id
  }

  /** The filter of `removeItem`: keep the lines of other sweets. */
  function NotSweet(id: int): CartItem -> bool
  {
    (item: CartItem) => item.sweet.id != id
  }

  /** The filter that ends `updateItemQuantity`: keep lines with a positive quantity. */
  function HasPositiveQuantity(item: CartItem): bool
  {
    item.quantityInCart > 0
  }

  /** `items.find(item => item.id === id)`, as the index of the first such line. */
  function FindLine(items: seq<CartItem>, id: int): (r: Option<nat>)
    ensures r.Some? ==> r.value < |items| && items[r.value].sweet.id == id
    ensures r.None? <==> forall k :: 0 <= k < |items| ==> items[k].sweet.id != id
  {
    Seqs.FindIndex(items, (item: CartItem) => item.sweet.id == id)
  }

  /** The `items.map` of `addItem`: every line of sweet `id` gets quantity `q`. */
  function WithQuantity(items: seq<CartItem>, id: int, q: int): (r: seq<CartItem>)
    ensures |r| == |items|
    ensures forall k :: 0 <= k < |r| ==> r[k].sweet == items[k].sweet
    ensures forall k :: 0 <= k < |r| ==>
      r[k].quantityInCart == (if items[k].sweet.id == id then q else items[k].quantityInCart)
  {
    seq(|items|, k requires 0 <= k < |items| =>
      if items[k].sweet.id == id then items[k].(quantityInCart := q) else items[k])
  }

  /** Every line of sweet `id` wants at most `bound`. */
  predicate LinesWithin(items: seq<CartItem>, id: int, bound: int)
  {
    forall k :: 0 <= k < |items| && items[k].sweet.id == id ==> items[k].quantityInCart <= bound
  }

  /** The cart after `addItem` raises the line at `k` by `quantity`. */
  function RaiseLine(items: seq<CartItem>, k: nat, quantity: int): (r: seq<CartItem>)
    requires k < |items|
    ensures |r| == |items| && r[k].sweet == items[k].sweet
    ensures r[k].quantityInCart == items[k].quantityInCart + quantity
    ensures forall j :: 0 <= j < |r| && j != k ==> r[j] == items[j]
  {
    items[k := items[k].(quantityInCart := items[k].quantityInCart + quantity)]
  }

  /** With one line per sweet, the `map` of `addItem` changes exactly the line at `k`. */
  lemma WithQuantityChangesOneLine(items: seq<CartItem>, k: nat, q: int)
    requires Seqs.KeysDistinct(items, LineId)
    requires k < |items|
    ensures WithQuantity(items, items[k].sweet.id, q) == items[k := items[k].(quantityInCart := q)]
    ensures Seqs.KeysDistinct(items[k := items[k].(quantityInCart := q)], LineId)
  {
    var updated := items[k := items[k].(quantityInCart := q)];
    forall j | 0 <= j < |items| ensures WithQuantity(items, items[k].sweet.id, q)[j] == updated[j] {
      if j != k {
        assert LineId(items[j]) != LineId(items[k]);
      }
    }
    Seqs.ReplaceKeepsKeysDistinct(items, k, items[k].(quantityInCart := q), LineId);
  }

  /** The quantity `updateItemQuantity` gives a line of a sweet with `stock`
      units: a request above the stock is cut down to the stock, any other
      request is floored at 0. */
  function ClampToStock(requested: int, stock: int): (q: int)
    ensures requested > stock ==> q == stock
    ensures 0 <= stock ==> 0 <= q <= stock
    ensures 0 <= requested <= stock ==> q == requested
    ensures requested <= stock ==> q >= 0
    ensures requested < 0 && requested <= stock ==> q == 0
    ensures q > 0 ==> q == requested || q == stock
  {
    if requested > stock then stock
    else if requested < 0 then 0
    else requested
  }

  /** The `items.map` of `updateItemQuantity`: the lines of sweet `id` get the
      requested quantity clamped to their own snapshot's stock. */
  function WithClampedQuantity(items: seq<CartItem>, id: int, requested: int): (r: seq<CartItem>)
    ensures |r| == |items|
    ensures forall k :: 0 <= k < |r| && items[k].sweet.id != id ==> r[k] == items[k]
    ensures forall k :: 0 <= k < |r| && items[k].sweet.id == id ==>
      r[k].sweet == items[k].sweet && r[k].quantityInCart == ClampToStock(requested, items[k].sweet.quantity)
  {
    seq(|items|, k requires 0 <= k < |items| =>
      if items[k].sweet.id == id
      then items[k].(quantityInCart := ClampToStock(requested, items[k].sweet.quantity))
      else items[k])
  }

  /** No line wants a negative quantity. */
  predicate QuantitiesNonNegative(items: seq<CartItem>)
  {
    forall k :: 0 <= k < |items| ==> items[k].quantityInCart >= 0
  }

  /** Every line wants at least one. */
  predicate QuantitiesPositive(items: seq<CartItem>)
  {
    forall k :: 0 <= k < |items| ==> items[k].quantityInCart > 0
  }

  /** No line has a negative price or wants a negative quantity. */
  predicate LinesNonNegative(items: seq<CartItem>)
  {
    forall k :: 0 <= k < |items| ==> items[k].quantityInCart >= 0 && items[k].sweet.price >= 0
  }

  /** `cartCount`: the `reduce` of the wanted quantities, from the left. */
  function CartCount(items: seq<CartItem>): (n: int)
    ensures QuantitiesNonNegative(items) ==> n >= 0
    ensures QuantitiesPositive(items) ==> n >= |items|
  {
    if items == [] then 0
    else CartCount(items[..|items| - 1]) + items[|items| - 1].quantityInCart
  }

  /** `totalPrice`: the `reduce` of price times wanted quantity, from the left. */
  function TotalPrice(items: seq<CartItem>): (t: int)
    ensures LinesNonNegative(items) ==> t >= 0
  {
    if items == [] then 0
    else TotalPrice(items[..|items| - 1]) + items[|items| - 1].sweet.price * items[|items| - 1].quantityInCart
  }

  /** An empty cart counts nothing and costs nothing. */
  lemma EmptyCartTotals()
    ensures CartCount([]) == 0 && TotalPrice([]) == 0
  {
  }

  /** The count of a cart is the sum of the counts of its two halves. */
  lemma {:induction false} CartCountAppend(a: seq<CartItem>, b: seq<CartItem>)
    ensures CartCount(a + b) == CartCount(a) + CartCount(b)
    decreases |b|
  {
    if b == [] {
      assert a + b == a;
    } else {
      assert (a + b)[..|a + b| - 1] == a + b[..|b| - 1];
      CartCountAppend(a, b[..|b| - 1]);
    }
  }

  /** The total price of a cart is the sum of the totals of its two halves. */
  lemma {:induction false} TotalPriceAppend(a: seq<CartItem>, b: seq<CartItem>)
    ensures TotalPrice(a + b) == TotalPrice(a) + TotalPrice(b)
    decreases |b|
  {
    if b == [] {
      assert a + b == a;
    } else {
      assert (a + b)[..|a + b| - 1] == a + b[..|b| - 1];
      TotalPriceAppend(a, b[..|b| - 1]);
    }
  }

  /** Replacing one line changes the count by the difference of the two quantities. */
  lemma CartCountReplace(items: seq<CartItem>, k: nat, line: CartItem)
    requires k < |items|
    ensures CartCount(items[k := line]) == CartCount(items) - items[k].quantityInCart + line.quantityInCart
  {
    var before, after := items[..k], items[k + 1..];
    assert items == before + [items[k]] + after;
    assert items[k := line] == before + [line] + after;
    CartCountAppend(before + [items[k]], after);
    CartCountAppend(before + [line], after);
    CartCountAppend(before, [items[k]]);
    CartCountAppend(before, [line]);
  }

  /** Raising the only line of a sweet keeps one line per sweet, keeps that
      sweet's lines within `bound` when the raised quantity is, and grows the
      count by the amount. */
  lemma RaiseLineKeepsCart(items: seq<CartItem>, k: nat, quantity: int, bound: int)
    requires Seqs.KeysDistinct(items, LineId)
    requires k < |items| && items[k].quantityInCart + quantity <= bound
    ensures Seqs.KeysDistinct(RaiseLine(items, k, quantity), LineId)
    ensures LinesWithin(RaiseLine(items, k, quantity), items[k].sweet.id, bound)
    ensures CartCount(RaiseLine(items, k, quantity)) == CartCount(items) + quantity
    ensures RaiseLine(items, k, quantity) == WithQuantity(items, items[k].sweet.id, items[k].quantityInCart + quantity)
  {
    var raised := items[k].(quantityInCart := items[k].quantityInCart + quantity);
    assert RaiseLine(items, k, quantity) == items[k := raised];
    WithQuantityChangesOneLine(items, k, items[k].quantityInCart + quantity);
    forall j | 0 <= j < |items| && j != k
      ensures items[j].sweet.id != items[k].sweet.id
    {
      assert LineId(items[j]) != LineId(items[k]);
    }
    CartCountReplace(items, k, raised);
  }

  /** Appending a line for a sweet the cart does not hold keeps one line per
      sweet, keeps that sweet's lines within `bound` when the new line is,
      and grows the count by the line's quantity. */
  lemma AppendLineKeepsCart(items: seq<CartItem>, line: CartItem, bound: int)
    requires Seqs.KeysDistinct(items, LineId)
    requires forall k :: 0 <= k < |items| ==> items[k].sweet.id != line.sweet.id
    requires line.quantityInCart <= bound
    ensures Seqs.KeysDistinct(items + [line], LineId)
    ensures LinesWithin(items + [line], line.sweet.id, bound)
    ensures CartCount(items + [line]) == CartCount(items) + line.quantityInCart
  {
    CartCountAppend(items, [line]);
    assert CartCount([line]) == CartCount([]) + line.quantityInCart;
  }

  /** Replacing one line changes the total by the difference of the two line totals. */
  lemma TotalPriceReplace(items: seq<CartItem>, k: nat, line: CartItem)
    requires k < |items|
    ensures TotalPrice(items[k := line]) ==
            TotalPrice(items) - items[k].sweet.price * items[k].quantityInCart + line.sweet.price * line.quantityInCart
  {
    var before, after := items[..k], items[k + 1..];
    assert items == before + [items[k]] + after;
    assert items[k := line] == before + [line] + after;
    TotalPriceAppend(before + [items[k]], after);
    TotalPriceAppend(before + [line], after);
    TotalPriceAppend(before, [items[k]]);
    TotalPriceAppend(before, [line]);
  }

  /** The cart store: its lines and whether the cart panel is open. */
  class Cart {
    var items: seq<CartItem>
    var isCartOpen: bool

    /** Every sweet has at most one line. */
    ghost predicate Valid()
      reads this
    {
      Seqs.KeysDistinct(items, LineId)
    }

    constructor ()
      ensures Valid()
      ensures items == [] && !isCartOpen
    {
      items := [];
      isCartOpen := false;
    }

    /** `addItem`: reject a request above the sweet's stock; otherwise raise
        the sweet's existing line, unless that would exceed the stock, or
        append a new line. `added` is false exactly when an error toast is shown. */
    method AddItem(sweet: Sweet, quantity: int) returns (added: bool)
      requires Valid()
      modifies this
      ensures Valid()
      ensures isCartOpen == old(isCartOpen)
      ensures quantity > sweet.quantity ==> !added
      ensures var existing := FindLine(old(items), sweet.id);
        added == (quantity <= sweet.quantity &&
                  (existing.Some? ==> old(items)[existing.value].quantityInCart + quantity <= sweet.quantity))
      ensures !added ==> items == old(items)
      ensures added && FindLine(old(items), sweet.id).None? ==>
        items == old(items) + [CartItem(sweet, quantity)]
      ensures var existing := FindLine(old(items), sweet.id);
        added && existing.Some? ==>
          var k := existing.value;
          items == RaiseLine(old(items), k, quantity)
      ensures added ==> LinesWithin(items, sweet.id, sweet.quantity)
      ensures added ==> CartCount(items) == CartCount(old(items)) + quantity
    {
      var existing := FindLine(items, sweet.id);
      if quantity > sweet.quantity {
        return false;
      }
      match existing {
        case Some(k) =>
          var newQuantity := items[k].quantityInCart + quantity;
          if newQuantity > sweet.quantity {
            return false;
          }
          // the line's new state is the `map` of the source (WithQuantity),
          // which RaiseLineKeepsCart proves through WithQuantityChangesOneLine
          RaiseLineKeepsCart(items, k, quantity, sweet.quantity);
          items := RaiseLine(items, k, quantity);
          added := true;
        case None =>
          var line := CartItem(sweet, quantity);
          AppendLineKeepsCart(items, line, sweet.quantity);
          items := items + [line];
          added := true;
      }
    }

    /** `removeItem`: drop every line of the sweet, keep the rest in order. */
    method RemoveItem(sweetId: int)
      requires Valid()
      modifies this
      ensures Valid()
      ensures isCartOpen == old(isCartOpen)
      ensures items == Seqs.Filter(old(items), NotSweet(sweetId))
      ensures forall k :: 0 <= k < |items| ==> items[k].sweet.id != sweetId
      ensures forall x :: x in old(items) && x.sweet.id != sweetId ==> x in items
      ensures FindLine(old(items), sweetId).None? ==> items == old(items)
    {
      var kept := Seqs.Filter(items, NotSweet(sweetId));
      Seqs.SubsequenceKeysDistinct(kept, items, LineId);
      if FindLine(items, sweetId).None? {
        Seqs.FilterKeepsAll(items, NotSweet(sweetId));
      }
      assert forall k :: 0 <= k < |kept| ==> kept[k] in kept;
      items := kept;
    }

    /** `updateItemQuantity`: set the sweet's line to the requested quantity
        clamped to its stock, then drop every line whose quantity is not
        positive. */
    method UpdateItemQuantity(sweetId: int, quantity: int)
      requires Valid()
      modifies this
      ensures Valid()
      ensures isCartOpen == old(isCartOpen)
      ensures items == Seqs.Filter(WithClampedQuantity(old(items), sweetId, quantity), HasPositiveQuantity)
      ensures forall k :: 0 <= k < |items| ==> items[k].quantityInCart > 0
      ensures forall k :: 0 <= k < |items| && items[k].sweet.id == sweetId ==>
        items[k].quantityInCart == ClampToStock(quantity, items[k].sweet.quantity)
      ensures forall x :: x in items && x.sweet.id != sweetId ==> x in old(items)
      ensures forall x :: x in old(items) && x.sweet.id != sweetId && x.quantityInCart > 0 ==> x in items
    {
      var clamped := WithClampedQuantity(items, sweetId, quantity);
      assert forall j :: 0 <= j < |clamped| ==> LineId(clamped[j]) == LineId(items[j]);
      assert Seqs.KeysDistinct(clamped, LineId);
      var kept := Seqs.Filter(clamped, HasPositiveQuantity);
      Seqs.SubsequenceKeysDistinct(kept, clamped, LineId);
      forall x | x in kept && x.sweet.id == sweetId
        ensures x.quantityInCart == ClampToStock(quantity, x.sweet.quantity)
      {
        var j :| 0 <= j < |clamped| && clamped[j] == x;
      }
      forall x | x in kept && x.sweet.id != sweetId ensures x in items {
        var j :| 0 <= j < |clamped| && clamped[j] == x;
      }
      forall x | x in items && x.sweet.id != sweetId && x.quantityInCart > 0 ensures x in kept {
        var j :| 0 <= j < |items| && items[j] == x;
        assert clamped[j] == x;
      }
      assert forall k :: 0 <= k < |kept| ==> kept[k] in kept;
      items := kept;
    }

    /** `clearCart`. */
    method ClearCart()
      modifies this
      ensures Valid()
      ensures items == [] && isCartOpen == old(isCartOpen)
    {
      items := [];
    }

    /** `toggleCart`. */
    method ToggleCart()
      modifies this
      ensures isCartOpen == !old(isCartOpen) && items == old(items)
    {
      isCartOpen := !isCartOpen;
    }

    /** `setCartOpen`. */
    method SetCartOpen(isOpen: bool)
      modifies this
      ensures isCartOpen == isOpen && items == old(items)
    {
      isCartOpen := isOpen;
    }
  }

  /** Toggling the cart panel twice restores it; setting it is idempotent. */
  method ToggleTwiceRestores(cart: Cart)
    modifies cart
    ensures cart.isCartOpen == old(cart.isCartOpen) && cart.items == old(cart.items)
  {
    cart.ToggleCart();
    cart.ToggleCart();
  }
}
