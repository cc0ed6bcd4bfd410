/** The browser cart: a list of lines kept in local storage, filled from a
    kitchen's menu or by reordering a past order, edited on the cart page. */
module ShoppingCart {
  import opened Common

  /** One cart entry: the menu item's id, its display name and unit price, the
      kitchen it belongs to, and how many portions are wanted. */
  datatype CartLine = CartLine(id: string, name: string, price: real, kitchenId: string, quantity: int)

  /** The delivery fee the cart page adds to the subtotal. */
  const CartDeliveryFee: real := 40.0

  predicate UniqueIds(cart: seq<CartLine>) {
    forall i, j :: 0 <= i < j < |cart| ==> cart[i].id != cart[j].id
  }

  predicate OneKitchen(cart: seq<CartLine>) {
    forall i :: 0 <= i < |cart| ==> cart[i].kitchenId == cart[0].kitchenId
  }

  /** The shape the cart operations maintain: no id twice, every line from
      the same kitchen. */
  predicate CartValid(cart: seq<CartLine>) {
    UniqueIds(cart) && OneKitchen(cart)
  }

  /** `cart.find(i => i.id === id)`, as a position. */
  function IndexOfId(cart: seq<CartLine>, id: string): (r: Option<nat>)
    ensures r.Some? ==> r.value < |cart| && cart[r.value].id == id &&
                        forall j :: 0 <= j < r.value ==> cart[j].id != id
    ensures r.None? ==> forall j :: 0 <= j < |cart| ==> cart[j].id != id
  {
    FirstIndex(cart, (l: CartLine) => l.id == id)
  }

  /** In a cart without repeated ids the line found is the only one with that id. */
  lemma IndexOfIdUnique(cart: seq<CartLine>, id: string, j: int)
    requires UniqueIds(cart) && IndexOfId(cart, id).Some?
    requires 0 <= j < |cart| && j != IndexOfId(cart, id).value
    ensures cart[j].id != id
  {
    var k := IndexOfId(cart, id).value;
    if j < k {
    } else {
      assert cart[k].id != cart[j].id;
    }
  }

  /** The kitchen test of `addToCart`: an empty cart takes anything, otherwise
      the item must come from the kitchen of the first line. */
  predicate Accepts(cart: seq<CartLine>, kitchenId: string) {
    cart == [] || cart[0].kitchenId == kitchenId
  }

  /** On a cart from one kitchen, testing the first line tests them all. */
  lemma AcceptsMeaning(cart: seq<CartLine>, kitchenId: string)
    requires OneKitchen(cart)
    ensures Accepts(cart, kitchenId) <==> forall i :: 0 <= i < |cart| ==> cart[i].kitchenId == kitchenId
  {
    if cart != [] && !Accepts(cart, kitchenId) {
      assert cart[0].kitchenId != kitchenId;
    }
  }

  /** Adding `item` with `bump` portions. The menu page adds one portion
      (`bump` 1); a reorder adds the item's own quantity. An existing line with
      the same id grows by `bump` and keeps its own name and price; a new id is
      appended as the item with quantity `bump`. */
  function Merge(cart: seq<CartLine>, item: CartLine, bump: int): (r: seq<CartLine>)
    ensures !Accepts(cart, item.kitchenId) ==> r == cart
    ensures Accepts(cart, item.kitchenId) && IndexOfId(cart, item.id).Some? ==>
              var k := IndexOfId(cart, item.id).value;
              |r| == |cart| && r[k] == cart[k].(quantity := cart[k].quantity + bump) &&
              forall j :: 0 <= j < |cart| && j != k ==> r[j] == cart[j]
    ensures Accepts(cart, item.kitchenId) && IndexOfId(cart, item.id).None? ==>
              r == cart + [item.(quantity := bump)]
  {
    if !Accepts(cart, item.kitchenId) then cart
    else match IndexOfId(cart, item.id)
      case Some(k) => cart[k := cart[k].(quantity := cart[k].quantity + bump)]
      case None => cart + [item.(quantity := bump)]
  }

  /** Adding keeps ids unique and the cart within one kitchen. */
  lemma MergeKeepsValid(cart: seq<CartLine>, item: CartLine, bump: int)
    requires CartValid(cart)
    ensures CartValid(Merge(cart, item, bump))
  {
    var r := Merge(cart, item, bump);
    if Accepts(cart, item.kitchenId) && IndexOfId(cart, item.id).None? {
      assert UniqueIds(r) by {
        forall i, j | 0 <= i < j < |r| ensures r[i].id != r[j].id {
          if j == |cart| {
            assert r[i] == cart[i];
          } else {
            assert r[i] == cart[i] && r[j] == cart[j];
          }
        }
      }
      assert OneKitchen(r) by {
        forall i | 0 <= i < |r| ensures r[i].kitchenId == r[0].kitchenId {
          if cart != [] {
            assert r[0] == cart[0];
            if i < |cart| { assert r[i] == cart[i]; }
          }
        }
      }
    } else if Accepts(cart, item.kitchenId) {
      var k := IndexOfId(cart, item.id).value;
      assert UniqueIds(r) by {
        forall i, j | 0 <= i < j < |r| ensures r[i].id != r[j].id {
          assert r[i].id == cart[i].id && r[j].id == cart[j].id;
        }
      }
      assert OneKitchen(r) by {
        forall i | 0 <= i < |r| ensures r[i].kitchenId == r[0].kitchenId {
          assert r[i].kitchenId == cart[i].kitchenId && r[0].kitchenId == cart[0].kitchenId;
        }
      }
    }
  }

  /** The amount one line contributes to the subtotal. */
  function Amount(l: CartLine): real {
    LineTotal(l.price, l.quantity)
  }

  /** `cart.reduce((sum, item) => sum + item.price * item.quantity, 0)`. */
  function Subtotal(cart: seq<CartLine>): real {
    if cart == [] then 0.0 else Subtotal(cart[..|cart| - 1]) + Amount(cart[|cart| - 1])
  }

  /** With no negative price or quantity the subtotal is never negative. */
  lemma {:induction false} SubtotalNonNegative(cart: seq<CartLine>)
    requires forall i :: 0 <= i < |cart| ==> cart[i].price >= 0.0 && cart[i].quantity >= 0
    ensures Subtotal(cart) >= 0.0
  {
    if cart != [] {
      var front := cart[..|cart| - 1];
      assert forall i :: 0 <= i < |front| ==> front[i] == cart[i];
      SubtotalNonNegative(front);
    }
  }

  lemma SubtotalAppend(cart: seq<CartLine>, l: CartLine)
    ensures Subtotal(cart + [l]) == Subtotal(cart) + Amount(l)
  {
    assert (cart + [l])[..|cart|] == cart;
  }

  /** Replacing one line changes the subtotal by the difference of the two amounts. */
  lemma {:induction false} SubtotalUpdate(cart: seq<CartLine>, k: nat, l: CartLine)
    requires k < |cart|
    ensures Subtotal(cart[k := l]) == Subtotal(cart) - Amount(cart[k]) + Amount(l)
  {
    var n := |cart|;
    var r := cart[k := l];
    if k < n - 1 {
      assert r[..n - 1] == cart[..n - 1][k := l];
      SubtotalUpdate(cart[..n - 1], k, l);
    } else {
      assert r[..n - 1] == cart[..n - 1];
    }
  }

  /** `cart.filter(i => i.id !== id)`. */
  function Without(cart: seq<CartLine>, id: string): (r: seq<CartLine>)
    ensures |r| <= |cart|
  {
    if cart == [] then []
    else
      var last := cart[|cart| - 1];
      Without(cart[..|cart| - 1], id) + (if last.id == id then [] else [last])
  }

  /** A removal keeps exactly the lines with another id. */
  lemma {:induction false} WithoutMembers(cart: seq<CartLine>, id: string)
    ensures forall x :: x in Without(cart, id) <==> x in cart && x.id != id
  {
    if cart != [] {
      WithoutMembers(cart[..|cart| - 1], id);
      assert cart == cart[..|cart| - 1] + [cart[|cart| - 1]];
    }
  }

  /** `filter` works line by line: the removal of a concatenation is the
      concatenation of the removals, so the kept lines stay in their order. */
  lemma {:induction false} WithoutAppend(a: seq<CartLine>, b: seq<CartLine>, id: string)
    ensures Without(a + b, id) == Without(a, id) + Without(b, id)
  {
    if b == [] {
      assert a + b == a;
    } else {
      var n := |b|;
      WithoutAppend(a, b[..n - 1], id);
      assert (a + b)[..|a + b| - 1] == a + b[..n - 1];
      assert (a + b)[|a + b| - 1] == b[n - 1];
    }
  }

  /** In a cart without repeated ids, removing a present id cuts out exactly
      that line and keeps the lines before and after it in their order. */
  lemma WithoutCutsLine(cart: seq<CartLine>, id: string)
    ensures UniqueIds(cart) && IndexOfId(cart, id).Some? ==>
              var k := IndexOfId(cart, id).value;
              Without(cart, id) == cart[..k] + cart[k + 1..]
  {
    if UniqueIds(cart) && IndexOfId(cart, id).Some? {
      var k := IndexOfId(cart, id).value;
      forall j | 0 <= j < |cart| && j != k ensures cart[j].id != id {
        IndexOfIdUnique(cart, id, j);
      }
      WithoutSoleLine(cart, id, k);
    }
  }

  lemma WithoutSoleLine(cart: seq<CartLine>, id: string, k: nat)
    requires k < |cart| && cart[k].id == id
    requires forall j :: 0 <= j < |cart| && j != k ==> cart[j].id != id
    ensures Without(cart, id) == cart[..k] + cart[k + 1..]
  {
    var before, after := cart[..k], cart[k + 1..];
    assert cart == (before + [cart[k]]) + after;
    WithoutAppend(before + [cart[k]], after, id);
    WithoutAppend(before, [cart[k]], id);
    WithoutOfMatching(cart[k], id);
    forall j | 0 <= j < |before| ensures before[j].id != id {
      assert before[j] == cart[j];
    }
    WithoutAbsent(before, id);
    forall j | 0 <= j < |after| ensures after[j].id != id {
      assert after[j] == cart[k + 1 + j];
    }
    WithoutAbsent(after, id);
  }

  lemma WithoutOfMatching(x: CartLine, id: string)
    requires x.id == id
    ensures Without([x], id) == []
  {
    assert [x][..0] == [];
  }

  /** Removing an id the cart does not hold changes nothing. */
  lemma {:induction false} WithoutAbsent(cart: seq<CartLine>, id: string)
    requires forall j :: 0 <= j < |cart| ==> cart[j].id != id
    ensures Without(cart, id) == cart
  {
    if cart != [] {
      WithoutAbsent(cart[..|cart| - 1], id);
      assert cart[..|cart| - 1] + [cart[|cart| - 1]] == cart;
    }
  }

  /** Removing a present id from a cart without repeats takes away exactly
      that line's amount. */
  lemma SubtotalWithout(cart: seq<CartLine>, id: string)
    requires UniqueIds(cart) && IndexOfId(cart, id).Some?
    ensures Subtotal(Without(cart, id)) == Subtotal(cart) - Amount(cart[IndexOfId(cart, id).value])
  {
    var k := IndexOfId(cart, id).value;
    forall j | 0 <= j < |cart| && j != k ensures cart[j].id != id {
      IndexOfIdUnique(cart, id, j);
    }
    SubtotalWithoutSole(cart, id, k);
  }

  lemma {:induction false} SubtotalWithoutSole(cart: seq<CartLine>, id: string, k: nat)
    requires k < |cart| && cart[k].id == id
    requires forall j :: 0 <= j < |cart| && j != k ==> cart[j].id != id
    ensures Subtotal(Without(cart, id)) == Subtotal(cart) - Amount(cart[k])
  {
    var n := |cart|;
    var front := cart[..n - 1];
    var last := cart[n - 1];
    assert Subtotal(cart) == Subtotal(front) + Amount(last);
    if k == n - 1 {
      WithoutAbsent(front, id);
      assert Without(cart, id) == front by {
        assert Without(cart, id) == Without(front, id) + [];
      }
    } else {
      SubtotalWithoutSole(front, id, k);
      assert Without(cart, id) == Without(front, id) + [last];
      SubtotalAppend(Without(front, id), last);
    }
  }

  /** Removing lines keeps the cart's shape. */
  lemma WithoutKeepsValid(cart: seq<CartLine>, id: string)
    requires CartValid(cart)
    ensures CartValid(Without(cart, id))
  {
    WithoutKeepsUnique(cart, id);
    WithoutMembers(cart, id);
    var r := Without(cart, id);
    forall i | 0 <= i < |r| ensures r[i].kitchenId == r[0].kitchenId {
      KitchenOfMember(cart, r[i]);
      KitchenOfMember(cart, r[0]);
    }
  }

  lemma KitchenOfMember(cart: seq<CartLine>, x: CartLine)
    requires OneKitchen(cart) && x in cart
    ensures x.kitchenId == cart[0].kitchenId
  {
    var j :| 0 <= j < |cart| && cart[j] == x;
  }

  /** In a cart without repeated ids the last line's id occurs nowhere before it. */
  lemma LastIdFresh(cart: seq<CartLine>)
    requires UniqueIds(cart) && cart != []
    ensures UniqueIds(cart[..|cart| - 1])
    ensures forall x :: x in cart[..|cart| - 1] ==> x.id != cart[|cart| - 1].id
  {
    var front := cart[..|cart| - 1];
    forall x | x in front ensures x.id != cart[|cart| - 1].id {
      var m :| 0 <= m < |front| && front[m] == x;
      assert cart[m] == x;
    }
    forall i, j | 0 <= i < j < |front| ensures front[i].id != front[j].id {
      assert front[i] == cart[i] && front[j] == cart[j];
    }
  }

  lemma {:induction false} WithoutKeepsUnique(cart: seq<CartLine>, id: string)
    requires UniqueIds(cart)
    ensures UniqueIds(Without(cart, id))
  {
    if cart != [] {
      var front := cart[..|cart| - 1];
      var last := cart[|cart| - 1];
      LastIdFresh(cart);
      WithoutKeepsUnique(front, id);
      if last.id != id {
        var rest := Without(front, id);
        var r := rest + [last];
        assert Without(cart, id) == r;
        WithoutMembers(front, id);
        forall i, j | 0 <= i < j < |r| ensures r[i].id != r[j].id {
          if j == |rest| {
            assert r[i] == rest[i] && rest[i] in front;
          } else {
            assert r[i] == rest[i] && r[j] == rest[j];
          }
        }
      }
    }
  }

  /** The quantity buttons: add `change` to the line with that id and drop the
      id from the cart once its quantity is no longer positive. An id the cart
      does not hold changes nothing. */
  function Changed(cart: seq<CartLine>, id: string, change: int): (r: seq<CartLine>)
    ensures IndexOfId(cart, id).None? ==> r == cart
    ensures IndexOfId(cart, id).Some? ==>
              var k := IndexOfId(cart, id).value;
              var q := cart[k].quantity + change;
              (q <= 0 ==> forall x :: x in r <==> x in cart && x.id != id) &&
              (q <= 0 && UniqueIds(cart) ==> r == cart[..k] + cart[k + 1..]) &&
              (q > 0 ==> |r| == |cart| && r[k] == cart[k].(quantity := q) &&
                         forall j :: 0 <= j < |cart| && j != k ==> r[j] == cart[j])
  {
    match IndexOfId(cart, id)
    case None => cart
    case Some(k) =>
      var q := cart[k].quantity + change;
      if q <= 0 then WithoutMembers(cart, id); WithoutCutsLine(cart, id); Without(cart, id)
      else cart[k := cart[k].(quantity := q)]
  }

  /** A quantity change keeps the cart's shape. */
  lemma ChangedKeepsValid(cart: seq<CartLine>, id: string, change: int)
    requires CartValid(cart)
    ensures CartValid(Changed(cart, id, change))
  {
    match IndexOfId(cart, id)
    case None =>
    case Some(k) =>
      var q := cart[k].quantity + change;
      if q <= 0 {
        WithoutKeepsValid(cart, id);
      } else {
        var r := Changed(cart, id, change);
        assert UniqueIds(r) by {
          forall i, j | 0 <= i < j < |r| ensures r[i].id != r[j].id {
            assert r[i].id == cart[i].id && r[j].id == cart[j].id;
          }
        }
        assert OneKitchen(r) by {
          forall i | 0 <= i < |r| ensures r[i].kitchenId == r[0].kitchenId {
            assert r[i].kitchenId == cart[i].kitchenId && r[0].kitchenId == cart[0].kitchenId;
          }
        }
      }
  }

  /** What each operation does to the cart page's subtotal: an accepted add
      raises it by `bump` portions at the price of the line that receives them;
      a quantity change moves it by `change` portions, or by the whole line once
      the line is dropped. */
  lemma MergeSubtotal(cart: seq<CartLine>, item: CartLine, bump: int)
    requires Accepts(cart, item.kitchenId)
    ensures IndexOfId(cart, item.id).Some? ==>
              Subtotal(Merge(cart, item, bump)) ==
              Subtotal(cart) + LineTotal(cart[IndexOfId(cart, item.id).value].price, bump)
    ensures IndexOfId(cart, item.id).None? ==>
              Subtotal(Merge(cart, item, bump)) == Subtotal(cart) + LineTotal(item.price, bump)
  {
    match IndexOfId(cart, item.id)
    case Some(k) =>
      SubtotalUpdate(cart, k, cart[k].(quantity := cart[k].quantity + bump));
      LineTotalAdd(cart[k].price, cart[k].quantity, bump);
    case None =>
      SubtotalAppend(cart, item.(quantity := bump));
  }

  lemma ChangedSubtotal(cart: seq<CartLine>, id: string, change: int)
    requires UniqueIds(cart) && IndexOfId(cart, id).Some?
    ensures var k := IndexOfId(cart, id).value;
            if cart[k].quantity + change > 0 then
              Subtotal(Changed(cart, id, change)) == Subtotal(cart) + LineTotal(cart[k].price, change)
            else
              Subtotal(Changed(cart, id, change)) == Subtotal(cart) - Amount(cart[k])
  {
    var k := IndexOfId(cart, id).value;
    var q := cart[k].quantity + change;
    if q > 0 {
      SubtotalUpdate(cart, k, cart[k].(quantity := q));
      LineTotalAdd(cart[k].price, cart[k].quantity, change);
    } else {
      SubtotalWithout(cart, id);
    }
  }

  /** The figures `updateCartSummary` shows. */
  datatype CartSummary = CartSummary(subtotal: real, total: real)

  /** `updateCartSummary`: the subtotal plus the flat delivery fee, and no GST. */
  function Summary(cart: seq<CartLine>): (s: CartSummary)
    ensures s.subtotal == Subtotal(cart)
    ensures s.total - s.subtotal == CartDeliveryFee
    ensures cart == [] ==> s == CartSummary(0.0, CartDeliveryFee)
  {
    var subtotal := Subtotal(cart);
    CartSummary(subtotal, subtotal + CartDeliveryFee)
  }

  /** The cart after each of `items` in turn went through the reorder merge. */
  function Reordered(cart: seq<CartLine>, items: seq<CartLine>): seq<CartLine> {
    if items == [] then cart
    else
      var item := items[|items| - 1];
      Merge(Reordered(cart, items[..|items| - 1]), item, item.quantity)
  }

  /** A reorder keeps the cart's shape. */
  lemma {:induction false} ReorderedKeepsValid(cart: seq<CartLine>, items: seq<CartLine>)
    requires CartValid(cart)
    ensures CartValid(Reordered(cart, items))
  {
    if items != [] {
      ReorderedKeepsValid(cart, items[..|items| - 1]);
      var item := items[|items| - 1];
      MergeKeepsValid(Reordered(cart, items[..|items| - 1]), item, item.quantity);
    }
  }

  /** Reordering into a cart that holds another kitchen's lines adds nothing. */
  lemma {:induction false} ReorderedForeignKitchen(cart: seq<CartLine>, items: seq<CartLine>)
    requires cart != [] && forall i :: 0 <= i < |items| ==> items[i].kitchenId != cart[0].kitchenId
    ensures Reordered(cart, items) == cart
  {
    if items != [] {
      ReorderedForeignKitchen(cart, items[..|items| - 1]);
    }
  }

  /** The cart as kept in local storage under `cart`; `getCart` reads `lines`,
      `saveCart` writes it. */
  class Cart {
    var lines: seq<CartLine>

    /** Nothing stored yet: `getCart` yields `[]`. */
    constructor ()
      ensures lines == []
    {
      lines := [];
    }

    predicate Valid()
      reads this
    {
      CartValid(lines)
    }

    /** The position `cart.find` stops at. */
    method FindLine(id: string) returns (k: Option<nat>)
      ensures k == IndexOfId(lines, id)
    {
      var i := 0;
      while i < |lines|
        invariant 0 <= i <= |lines|
        invariant forall j :: 0 <= j < i ==> lines[j].id != id
      {
        if lines[i].id == id {
          return Some(i);
        }
        i := i + 1;
      }
      return None;
    }

    /** The shared body of both `addToCart` functions. */
    method MergeItem(item: CartLine, bump: int)
      modifies this
      ensures lines == Merge(old(lines), item, bump)
      ensures old(Valid()) ==> Valid()
    {
      if Valid() { MergeKeepsValid(lines, item, bump); }
      if |lines| > 0 && lines[0].kitchenId != item.kitchenId {
        return;
      }
      var k := FindLine(item.id);
      if k.Some? {
        var line := lines[k.value];
        lines := lines[k.value := line.(quantity := line.quantity + bump)];
      } else {
        lines := lines + [item.(quantity := bump)];
      }
    }

    /** `addToCart` on the menu pages: one more portion per click. */
    method AddToCart(item: CartLine)
      modifies this
      ensures lines == Merge(old(lines), item, 1)
      ensures old(Valid()) ==> Valid()
    {
      MergeItem(item, 1);
    }

    /** The reorder page's `addToCart`: the item brings its own quantity. */
    method AddReordered(item: CartLine)
      modifies this
      ensures lines == Merge(old(lines), item, item.quantity)
      ensures old(Valid()) ==> Valid()
    {
      MergeItem(item, item.quantity);
    }

      /** `reorder`: every item of the fetched order goes through the reorder
        page's `addToCart`, in the order's own order. */
    method Reorder(items: seq<CartLine>)
      modifies this
      ensures lines == Reordered(old(lines), items)
      ensures old(Valid()) ==> Valid()
    {
      for i := 0 to |items|
        invariant lines == Reordered(old(lines), items[..i])
        invariant old(Valid()) ==> Valid()
      {
        assert items[..i + 1][..i] == items[..i];
        AddReordered(items[i]);
      }
      assert items[..|items|] == items;
    }

  /** A click on a `quantity-change` button. */
    method ChangeQuantity(id: string, change: int)
      modifies this
      ensures lines == Changed(old(lines), id, change)
      ensures old(Valid()) ==> Valid()
    {
      if Valid() { ChangedKeepsValid(lines, id, change); }
      var k := FindLine(id);
      if k.Some? {
        var q := lines[k.value].quantity + change;
        if q <= 0 {
          lines := Without(lines, id);
        } else {
          lines := lines[k.value := lines[k.value].(quantity := q)];
        }
      }
    }

    /** A click on `Remove`. */
    method Remove(id: string)
      modifies this
      ensures lines == Without(old(lines), id)
      ensures old(Valid()) ==> Valid()
      ensures old(Valid()) && IndexOfId(old(lines), id).Some? ==>
                var k := IndexOfId(old(lines), id).value;
                lines == old(lines)[..k] + old(lines)[k + 1..]
    {
      if Valid() { WithoutKeepsValid(lines, id); }
      WithoutCutsLine(lines, id);
      lines := Without(lines, id);
    }

    /** A confirmed `Clear cart`. */
    method Clear()
      modifies this
      ensures lines == []
      ensures Valid()
    {
      lines := [];
    }
  }
}
