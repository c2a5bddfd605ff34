/** The navigation bar (src/components/Navbar.tsx): the cart badge count. */
module Navbar {
  import opened Wrappers
  import Cart

  function Quantity(item: Cart.Item): int
  {
    item.quantity
  }

  /**
   * `cartContext?.cart.reduce((sum, item) => sum + item.quantity, 0) || 0`: None is a
   * missing cart context, which shows 0.
   */
  function TotalItems(context: Option<seq<Cart.Item>>): (n: int)
    ensures context == None ==> n == 0
    ensures context != None ==> n == Cart.Sum(context.value, Quantity)
  {
    match context
    case None => 0
    case Some(cart) =>
      Cart.ReduceIsSum(cart, 0, Quantity);
      var sum := Cart.Reduce(cart, 0, Quantity);
      // `|| 0` replaces only a falsy sum, and the only falsy integer is 0 itself
      if sum != 0 then sum else 0
  }

  /** An empty cart shows 0, and a new line raises the count by its quantity. */
  lemma BadgeAdditive(cart: seq<Cart.Item>, item: Cart.Item)
    ensures TotalItems(Some([])) == 0
    ensures TotalItems(Some(cart + [item])) == TotalItems(Some(cart)) + item.quantity
  {
    Cart.SumAppend(cart, [item], Quantity);
    assert Cart.Sum([item], Quantity) == Quantity(item) + Cart.Sum([], Quantity);
  }

  /** The count does not depend on the order of the lines. */
  lemma BadgeOrderIndependent(a: seq<Cart.Item>, b: seq<Cart.Item>)
    requires multiset(a) == multiset(b)
    ensures TotalItems(Some(a)) == TotalItems(Some(b))
  {
    Cart.SumPermutation(a, b, Quantity);
  }

  /** With every quantity at least 1, the count is at least the number of lines. */
  lemma {:induction false} BadgeCountsUnits(cart: seq<Cart.Item>)
    requires forall i :: 0 <= i < |cart| ==> cart[i].quantity >= 1
    ensures TotalItems(Some(cart)) >= |cart|
  {
    if cart != [] {
      BadgeCountsUnits(cart[1..]);
    }
  }

  /** Two lines, of quantities 1 and 3, show 4 and not 2. */
  lemma BadgeExample()
    ensures TotalItems(Some([Cart.Item(1, "a", 1000, "", 1), Cart.Item(2, "b", 550, "", 3)])) == 4
  {
    var c := [Cart.Item(1, "a", 1000, "", 1), Cart.Item(2, "b", 550, "", 3)];
    assert c[1..] == [Cart.Item(2, "b", 550, "", 3)];
    assert c[1..][1..] == [];
  }
}
