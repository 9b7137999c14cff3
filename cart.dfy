/**
 * The storefront's shopping cart: an array of lines `{id, name, price,
 * color, quantity}` kept in `localStorage['bloomy_cart']` and changed in
 * place by the "add to cart" and "remove" buttons.
 *
 * Prices are integer euro cents (16.99 EUR is 1699).
 */
module Storefront {
  import opened Text
  import Search

  const PRODUCT_ID: String := "bloomy-smart-case"
  const PRODUCT_NAME: String := "Bloomy Smart Case"
  const PRODUCT_PRICE: int := 1699

  datatype CartLine = CartLine(id: String, name: String, price: int, color: String, quantity: int)

  /** The line `addToCart` appends for a colour not yet in the cart. */
  function NewLine(color: String): CartLine {
    CartLine(PRODUCT_ID, PRODUCT_NAME, PRODUCT_PRICE, color, 1)
  }

  /** `cart.findIndex(item => item.color === color)` */
  function IndexOfColor(lines: seq<CartLine>, color: String): (i: int)
    ensures -1 <= i < |lines|
    ensures i >= 0 ==> lines[i].color == color && forall j :: 0 <= j < i ==> lines[j].color != color
    ensures i == -1 <==> forall j :: 0 <= j < |lines| ==> lines[j].color != color
  {
    Search.FindIndex(lines, (l: CartLine) => l.color == color)
  }

  /** The badge count: `cart.reduce((sum, item) => sum + item.quantity, 0)`. */
  function TotalItems(lines: seq<CartLine>): int {
    if lines == [] then 0 else TotalItems(lines[..|lines| - 1]) + lines[|lines| - 1].quantity
  }

  /** No two lines share a colour. */
  predicate OneLinePerColor(lines: seq<CartLine>) {
    forall i, j :: 0 <= i < j < |lines| ==> lines[i].color != lines[j].color
  }

  /** Every line holds at least one item. */
  predicate AllQuantitiesPositive(lines: seq<CartLine>) {
    forall i :: 0 <= i < |lines| ==> lines[i].quantity >= 1
  }

  /**
   * The cart after `addToCart(color)`: the line of that colour holds one
   * more item, or a new line with one item is appended; nothing else changes.
   */
  function WithItemAdded(lines: seq<CartLine>, color: String): (r: seq<CartLine>)
    ensures var i := IndexOfColor(lines, color);
      && (i >= 0 ==>
            && |r| == |lines|
            && r[i] == lines[i].(quantity := lines[i].quantity + 1)
            && forall j :: 0 <= j < |lines| && j != i ==> r[j] == lines[j])
      && (i == -1 ==> r == lines + [NewLine(color)])
  {
    var i := IndexOfColor(lines, color);
    if i >= 0 then lines[i := lines[i].(quantity := lines[i].quantity + 1)] else lines + [NewLine(color)]
  }

  /**
   * The cart after `removeFromCart(index)`: the line holds one item fewer,
   * or, when it held one (or fewer), it is cut out and the rest keep their order.
   */
  function WithItemRemoved(lines: seq<CartLine>, index: int): (r: seq<CartLine>)
    requires 0 <= index < |lines|
    ensures lines[index].quantity > 1 ==>
      && |r| == |lines|
      && r[index] == lines[index].(quantity := lines[index].quantity - 1)
      && forall j :: 0 <= j < |lines| && j != index ==> r[j] == lines[j]
    ensures lines[index].quantity <= 1 ==>
      && |r| == |lines| - 1
      && (forall j :: 0 <= j < index ==> r[j] == lines[j])
      && (forall j :: index <= j < |r| ==> r[j] == lines[j + 1])
  {
    if lines[index].quantity > 1 then
      lines[index := lines[index].(quantity := lines[index].quantity - 1)]
    else
      lines[..index] + lines[index + 1..]
  }

  /** The cart after the price fix in `init`: the product's lines take the current price. */
  function Repriced(lines: seq<CartLine>): (r: seq<CartLine>)
    ensures |r| == |lines|
    ensures forall i :: 0 <= i < |lines| ==>
      r[i] == if lines[i].id == PRODUCT_ID then lines[i].(price := PRODUCT_PRICE) else lines[i]
  {
    seq(|lines|, i requires 0 <= i < |lines| =>
      if lines[i].id == PRODUCT_ID then lines[i].(price := PRODUCT_PRICE) else lines[i])
  }

  // -----------------------------------------------------------------
  // The item count
  // -----------------------------------------------------------------

  lemma {:induction false} TotalItemsConcat(a: seq<CartLine>, b: seq<CartLine>)
    ensures TotalItems(a + b) == TotalItems(a) + TotalItems(b)
    decreases |b|
  {
    if b == [] {
      assert a + b == a;
    } else {
      var b' := b[..|b| - 1];
      assert (a + b)[..|a + b| - 1] == a + b';
      TotalItemsConcat(a, b');
    }
  }

  lemma TotalItemsSingleton(l: CartLine)
    ensures TotalItems([l]) == l.quantity
  {
    assert [l][..0] == [];
  }

  /** Replacing one line changes the count by the difference of the two quantities. */
  lemma TotalItemsReplace(lines: seq<CartLine>, i: int, l: CartLine)
    requires 0 <= i < |lines|
    ensures TotalItems(lines[i := l]) == TotalItems(lines) - lines[i].quantity + l.quantity
  {
    var before, after := lines[..i], lines[i + 1..];
    assert lines == before + [lines[i]] + after;
    assert lines[i := l] == before + [l] + after;
    TotalItemsConcat(before + [lines[i]], after);
    TotalItemsConcat(before, [lines[i]]);
    TotalItemsConcat(before + [l], after);
    TotalItemsConcat(before, [l]);
    TotalItemsSingleton(lines[i]);
    TotalItemsSingleton(l);
  }

  /** Cutting one line out lowers the count by that line's quantity. */
  lemma TotalItemsCut(lines: seq<CartLine>, i: int)
    requires 0 <= i < |lines|
    ensures TotalItems(lines[..i] + lines[i + 1..]) == TotalItems(lines) - lines[i].quantity
  {
    var before, after := lines[..i], lines[i + 1..];
    assert lines == before + [lines[i]] + after;
    TotalItemsConcat(before + [lines[i]], after);
    TotalItemsConcat(before, [lines[i]]);
    TotalItemsConcat(before, after);
    TotalItemsSingleton(lines[i]);
  }

  /** With every quantity positive, the badge shows at least one item per line. */
  lemma {:induction false} TotalItemsAtLeastLines(lines: seq<CartLine>)
    requires AllQuantitiesPositive(lines)
    ensures TotalItems(lines) >= |lines|
    decreases |lines|
  {
    if lines != [] {
      TotalItemsAtLeastLines(lines[..|lines| - 1]);
    }
  }

  // -----------------------------------------------------------------
  // What adding and removing promise
  // -----------------------------------------------------------------

  /** Adding puts exactly one more item in the cart. */
  lemma AddCountsOne(lines: seq<CartLine>, color: String)
    ensures TotalItems(WithItemAdded(lines, color)) == TotalItems(lines) + 1
  {
    var i := IndexOfColor(lines, color);
    if i >= 0 {
      TotalItemsReplace(lines, i, lines[i].(quantity := lines[i].quantity + 1));
    } else {
      TotalItemsConcat(lines, [NewLine(color)]);
      TotalItemsSingleton(NewLine(color));
    }
  }

  /** Adding keeps one line per colour and every quantity positive. */
  lemma AddKeepsInvariants(lines: seq<CartLine>, color: String)
    ensures OneLinePerColor(lines) ==> OneLinePerColor(WithItemAdded(lines, color))
    ensures AllQuantitiesPositive(lines) ==> AllQuantitiesPositive(WithItemAdded(lines, color))
    ensures exists i :: 0 <= i < |WithItemAdded(lines, color)| && WithItemAdded(lines, color)[i].color == color
  {
    var r := WithItemAdded(lines, color);
    var i := IndexOfColor(lines, color);
    if i >= 0 {
      assert r[i].color == color;
    } else {
      assert r[|lines|].color == color;
    }
  }

  /** Removing takes exactly one item out of a cart whose quantities are positive. */
  lemma RemoveCountsOne(lines: seq<CartLine>, index: int)
    requires 0 <= index < |lines|
    requires AllQuantitiesPositive(lines)
    ensures TotalItems(WithItemRemoved(lines, index)) == TotalItems(lines) - 1
  {
    if lines[index].quantity > 1 {
      TotalItemsReplace(lines, index, lines[index].(quantity := lines[index].quantity - 1));
    } else {
      TotalItemsCut(lines, index);
    }
  }

  /** Removing keeps one line per colour and every quantity positive. */
  lemma RemoveKeepsInvariants(lines: seq<CartLine>, index: int)
    requires 0 <= index < |lines|
    ensures OneLinePerColor(lines) ==> OneLinePerColor(WithItemRemoved(lines, index))
    ensures AllQuantitiesPositive(lines) ==> AllQuantitiesPositive(WithItemRemoved(lines, index))
  {
    var r := WithItemRemoved(lines, index);
    if lines[index].quantity <= 1 && OneLinePerColor(lines) {
      forall i, j | 0 <= i < j < |r|
        ensures r[i].color != r[j].color
      {
        var i' := if i < index then i else i + 1;
        var j' := if j < index then j else j + 1;
        assert r[i] == lines[i'] && r[j] == lines[j'];
      }
    }
  }

  /** The price fix changes prices only: colours, quantities and the invariants stay. */
  lemma RepriceKeepsItems(lines: seq<CartLine>)
    ensures TotalItems(Repriced(lines)) == TotalItems(lines)
    ensures OneLinePerColor(lines) <==> OneLinePerColor(Repriced(lines))
    ensures AllQuantitiesPositive(lines) <==> AllQuantitiesPositive(Repriced(lines))
    ensures Repriced(Repriced(lines)) == Repriced(lines)
  {
    RepriceKeepsCount(lines);
  }

  lemma {:induction false} RepriceKeepsCount(lines: seq<CartLine>)
    ensures TotalItems(Repriced(lines)) == TotalItems(lines)
    decreases |lines|
  {
    if lines != [] {
      var init := lines[..|lines| - 1];
      assert Repriced(lines)[..|lines| - 1] == Repriced(init);
      RepriceKeepsCount(init);
    }
  }

  /** The cart, changed in place by the page's buttons. */
  class Cart {
    var lines: seq<CartLine>

    ghost predicate Valid()
      reads this
    {
      OneLinePerColor(lines) && AllQuantitiesPositive(lines)
    }

    /** `JSON.parse(localStorage.getItem('bloomy_cart')) || []` */
    constructor (stored: seq<CartLine>)
      ensures lines == stored
    {
      lines := stored;
    }

    /** `addToCart` */
    method AddToCart(color: String)
      modifies this
      ensures lines == WithItemAdded(old(lines), color)
      ensures TotalItems(lines) == TotalItems(old(lines)) + 1
      ensures old(Valid()) ==> Valid()
    {
      var i := IndexOfColor(lines, color);
      if i > -1 {
        lines := lines[i := lines[i].(quantity := lines[i].quantity + 1)];
      } else {
        lines := lines + [NewLine(color)];
      }
      AddCountsOne(old(lines), color);
      AddKeepsInvariants(old(lines), color);
    }

    /** `removeFromCart`; the page only offers indices of displayed lines. */
    method RemoveFromCart(index: int)
      requires 0 <= index < |lines|
      modifies this
      ensures lines == WithItemRemoved(old(lines), index)
      ensures old(Valid()) ==> Valid() && TotalItems(lines) == TotalItems(old(lines)) - 1
    {
      if lines[index].quantity > 1 {
        lines := lines[index := lines[index].(quantity := lines[index].quantity - 1)];
      } else {
        lines := lines[..index] + lines[index + 1..];
      }
      RemoveKeepsInvariants(old(lines), index);
      if old(Valid()) {
        RemoveCountsOne(old(lines), index);
      }
    }

    /** The item count shown on the cart badge, summed line by line. */
    method ItemCount() returns (n: int)
      ensures n == TotalItems(lines)
    {
      n := 0;
      for i := 0 to |lines|
        invariant n == TotalItems(lines[..i])
      {
        assert lines[..i + 1][..i] == lines[..i];
        n := n + lines[i].quantity;
      }
      assert lines[..|lines|] == lines;
    }

    /** The price fix at start-up, one line at a time. */
    method FixPrices()
      modifies this
      ensures lines == Repriced(old(lines))
      ensures old(Valid()) ==> Valid()
    {
      for i := 0 to |lines|
        invariant |lines| == |old(lines)|
        invariant forall j :: 0 <= j < i ==> lines[j] == Repriced(old(lines))[j]
        invariant forall j :: i <= j < |lines| ==> lines[j] == old(lines)[j]
      {
        if lines[i].id == PRODUCT_ID {
          lines := lines[i := lines[i].(price := PRODUCT_PRICE)];
        }
      }
      RepriceKeepsItems(old(lines));
    }
  }
}
