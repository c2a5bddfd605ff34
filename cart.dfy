/**
 * The cart page (src/pages/Cart.tsx): the order total, and the two-step removal flow
 * held in `itemToRemove` (Idle is None, Pending(id) is Some(id)). The cart store that
 * owns the lines is not part of this model; its `removeFromCart` is a parameter.
 */
module Cart {
  import opened Wrappers

  /** A cart line: a snapshot of the product and its quantity; `price` is in integer cents. */
  datatype Item = Item(id: int, title: string, price: int, image: string, quantity: int)

  /** `cart.reduce((sum, item) => sum + f(item), acc)`: a left fold from `acc`. */
  function Reduce(cart: seq<Item>, acc: int, f: Item -> int): int
  {
    if cart == [] then acc else Reduce(cart[1..], acc + f(cart[0]), f)
  }

  /** The sum of `f` over the lines. */
  function Sum(cart: seq<Item>, f: Item -> int): int
  {
    if cart == [] then 0 else f(cart[0]) + Sum(cart[1..], f)
  }

  /** The fold adds the sum of the lines to its starting value. */
  lemma {:induction false} ReduceIsSum(cart: seq<Item>, acc: int, f: Item -> int)
    ensures Reduce(cart, acc, f) == acc + Sum(cart, f)
  {
    if cart != [] {
      ReduceIsSum(cart[1..], acc + f(cart[0]), f);
    }
  }

  lemma {:induction false} SumAppend(a: seq<Item>, b: seq<Item>, f: Item -> int)
    ensures Sum(a + b, f) == Sum(a, f) + Sum(b, f)
  {
    if a == [] {
      assert a + b == b;
    } else {
      assert (a + b)[0] == a[0];
      assert (a + b)[1..] == a[1..] + b;
      SumAppend(a[1..], b, f);
    }
  }

  /** The sum does not depend on the order of the lines. */
  lemma {:induction false} SumPermutation(a: seq<Item>, b: seq<Item>, f: Item -> int)
    requires multiset(a) == multiset(b)
    ensures Sum(a, f) == Sum(b, f)
    decreases |a|
  {
    if a == [] {
      assert |b| == |multiset(b)| == 0;
    } else {
      assert a[0] in multiset(b);
      var i :| 0 <= i < |b| && b[i] == a[0];
      var rest := b[..i] + b[i + 1..];
      assert b == b[..i] + [b[i]] + b[i + 1..];
      SumAppend(b[..i] + [b[i]], b[i + 1..], f);
      SumAppend(b[..i], [b[i]], f);
      SumAppend(b[..i], b[i + 1..], f);
      assert Sum([b[i]], f) == f(b[i]) + Sum([], f);
      assert a == [a[0]] + a[1..];
      assert multiset(b) == multiset(rest) + multiset{b[i]};
      assert multiset(a[1..]) == multiset(a) - multiset{a[0]};
      SumPermutation(a[1..], rest, f);
    }
  }

  /** What one line contributes to the total: price times quantity. */
  function LineValue(item: Item): int
  {
    item.price * item.quantity
  }

  /** `total`: the value of the cart, in cents. */
  function Total(cart: seq<Item>): (t: int)
    ensures t == Sum(cart, LineValue)
  {
    ReduceIsSum(cart, 0, LineValue);
    Reduce(cart, 0, LineValue)
  }

  /** The total of an empty cart is 0; adding a line adds its price times its quantity. */
  lemma TotalOfLines(cart: seq<Item>, item: Item)
    ensures Total([]) == 0
    ensures Total(cart + [item]) == Total(cart) + item.price * item.quantity
  {
    SumAppend(cart, [item], LineValue);
    assert Sum([item], LineValue) == LineValue(item) + Sum([], LineValue);
  }

  /** The total does not depend on the display order of the lines. */
  lemma TotalOrderIndependent(a: seq<Item>, b: seq<Item>)
    requires multiset(a) == multiset(b)
    ensures Total(a) == Total(b)
  {
    SumPermutation(a, b, LineValue);
  }

  /**
   * One line of 10.00 and three of 5.50 come to 26.50: with integer cents, one line
   * priced 1000 with quantity 1 and one priced 550 with quantity 3 total 2650.
   */
  lemma TotalExample()
    ensures Total([Item(1, "a", 1000, "", 1), Item(2, "b", 550, "", 3)]) == 2650
  {
    var c := [Item(1, "a", 1000, "", 1), Item(2, "b", 550, "", 3)];
    assert c[1..] == [Item(2, "b", 550, "", 3)];
    assert c[1..][1..] == [];
  }

  /**
   * Assumed behaviour of the cart store's `removeFromCart(id)`: the line with that id is
   * deleted whatever its quantity, the others keep their order.
   */
  function RemoveLine(cart: seq<Item>, id: int): (r: seq<Item>)
    ensures forall item :: item in r <==> item in cart && item.id != id
    ensures |r| <= |cart|
  {
    if cart == [] then []
    else if cart[0].id == id then RemoveLine(cart[1..], id)
    else [cart[0]] + RemoveLine(cart[1..], id)
  }

  /** The lines carrying `id`. */
  function LinesWithId(cart: seq<Item>, id: int): seq<Item>
  {
    if cart == [] then []
    else (if cart[0].id == id then [cart[0]] else []) + LinesWithId(cart[1..], id)
  }

  /** Under that assumption the total drops by exactly the value of the removed lines. */
  lemma {:induction false} RemoveLineTotal(cart: seq<Item>, id: int)
    ensures Total(RemoveLine(cart, id)) == Total(cart) - Total(LinesWithId(cart, id))
  {
    if cart != [] {
      RemoveLineTotal(cart[1..], id);
      var rest := RemoveLine(cart[1..], id);
      SumAppend([cart[0]], rest, LineValue);
      SumAppend([cart[0]], LinesWithId(cart[1..], id), LineValue);
      SumAppend([], rest, LineValue);
      assert [] + LinesWithId(cart[1..], id) == LinesWithId(cart[1..], id);
    }
  }

  /** Cart lines and the pending removal of the cart page, with the log of store calls. */
  class CartPage {
    /** The store's lines, as read from the cart context. */
    var cart: seq<Item>
    /** `itemToRemove`: None is Idle, Some(id) is PendingRemoval(id). */
    var itemToRemove: Option<int>
    /** The ids passed to `removeFromCart`, oldest first. */
    var removeCalls: seq<int>

    constructor (lines: seq<Item>)
      ensures cart == lines && itemToRemove == None && removeCalls == []
    {
      cart := lines;
      itemToRemove := None;
      removeCalls := [];
    }

    /** The confirmation dialog is on screen. */
    predicate DialogOpen()
      reads this
    {
      itemToRemove != None
    }

    /** The pending id, if any, names a line of the cart. */
    predicate PendingInCart()
      reads this
    {
      itemToRemove.Some? ==> exists i :: 0 <= i < |cart| && cart[i].id == itemToRemove.value
    }

    /** The Remove button of the line at `line`: `setItemToRemove(item.id)`. */
    method ClickRemove(line: nat)
      requires line < |cart|
      modifies this`itemToRemove
      ensures itemToRemove == Some(cart[line].id)
      ensures DialogOpen() && PendingInCart()
    {
      itemToRemove := Some(cart[line].id);
    }

    /** The Cancel button: `setItemToRemove(null)`. */
    method Cancel()
      modifies this`itemToRemove
      ensures itemToRemove == None
      ensures !DialogOpen() && PendingInCart()
    {
      itemToRemove := None;
    }

    /**
     * `handleConfirmRemove`: when a removal is pending, calls `removeFromCart` once with
     * the pending id and returns to Idle; when Idle, does nothing.
     */
    method ConfirmRemove(removeFromCart: (seq<Item>, int) -> seq<Item>)
      modifies this
      ensures old(itemToRemove) == None ==> unchanged(this)
      ensures old(itemToRemove) != None ==>
                && cart == removeFromCart(old(cart), old(itemToRemove).value)
                && removeCalls == old(removeCalls) + [old(itemToRemove).value]
                && itemToRemove == None
      ensures !DialogOpen()
    {
      if itemToRemove != None {
        var id := itemToRemove.value;
        cart := removeFromCart(cart, id);
        removeCalls := removeCalls + [id];
        itemToRemove := None;
      }
    }
  }
}
