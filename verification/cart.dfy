/**
 * The shopping-cart reducer of the storefront's cart context: a state
 * record of line items plus two derived totals, and six actions that each
 * build a new state from the old one. Prices are integer cents and
 * quantities integers, so the totals are exact sums.
 */
module Cart {
  import opened Wrappers
  import opened Seqs
  import opened Catalog

  /** One line of the cart. `id` is a label made when the line is created; the reducer never reads it. */
  datatype CartItem = CartItem(
    id: string,
    productId: string,
    name: string,
    price: int,
    image: Option<string>,
    quantity: int)

  datatype CartState = CartState(
    items: seq<CartItem>,
    total: int,
    itemCount: int,
    isLoading: bool)

  datatype CartAction =
    | SetLoading(loading: bool)
    | SetCart(lines: seq<CartItem>)
    | AddItem(item: CartItem)
    | RemoveItem(productId: string)
    | UpdateQuantity(productId: string, quantity: int)
    | ClearCart

  /** The state before anything is loaded from storage. */
  const InitialState := CartState([], 0, 0, true)

  function LineTotal(x: CartItem): int { x.price * x.quantity }

  /** `items.reduce((sum, item) => sum + item.price * item.quantity, 0)`, folded from the left. */
  function Total(items: seq<CartItem>): int
  {
    if items == [] then 0 else Total(items[..|items| - 1]) + LineTotal(items[|items| - 1])
  }

  /** `items.reduce((sum, item) => sum + item.quantity, 0)`, folded from the left. */
  function ItemCount(items: seq<CartItem>): int
  {
    if items == [] then 0 else ItemCount(items[..|items| - 1]) + items[|items| - 1].quantity
  }

  /** The derived fields agree with the lines. */
  predicate Consistent(s: CartState)
  {
    s.total == Total(s.items) && s.itemCount == ItemCount(s.items)
  }

  /** No two lines are for the same product. */
  predicate UniqueIds(items: seq<CartItem>)
  {
    forall i, j :: 0 <= i < j < |items| ==> items[i].productId != items[j].productId
  }

  /** Every line has a positive quantity. */
  predicate AllPositive(items: seq<CartItem>)
  {
    forall i :: 0 <= i < |items| ==> items[i].quantity > 0
  }

  /** `items.find(item => item.productId === productId)`: the first line for that product, if any. */
  function Find(items: seq<CartItem>, productId: string): (r: Option<CartItem>)
    ensures r.None? <==> forall i :: 0 <= i < |items| ==> items[i].productId != productId
    ensures r.Some? ==> exists k :: 0 <= k < |items| && items[k] == r.value && r.value.productId == productId
  {
    if items == [] then None
    else if items[0].productId == productId then Some(items[0])
    else
      var r := Find(items[1..], productId);
      assert forall i :: 1 <= i < |items| ==> items[i] == items[1..][i - 1];
      r
  }

  /** The map in the merge branch of ADD_ITEM: every line for `productId` gains `extra` units. */
  function MergeQuantity(items: seq<CartItem>, productId: string, extra: int): (r: seq<CartItem>)
  {
    Map(items, (x: CartItem) => if x.productId == productId then x.(quantity := x.quantity + extra) else x)
  }

  /** The map in UPDATE_QUANTITY: every line for `productId` gets `quantity`. */
  function SetQuantity(items: seq<CartItem>, productId: string, quantity: int): (r: seq<CartItem>)
  {
    Map(items, (x: CartItem) => if x.productId == productId then x.(quantity := quantity) else x)
  }

  /** The filter in REMOVE_ITEM. */
  function WithoutProduct(items: seq<CartItem>, productId: string): (r: seq<CartItem>)
  {
    Filter(items, (x: CartItem) => x.productId != productId)
  }

  /** The filter in UPDATE_QUANTITY: lines whose quantity is not positive disappear. */
  function PositiveLines(items: seq<CartItem>): (r: seq<CartItem>)
  {
    Filter(items, (x: CartItem) => x.quantity > 0)
  }

  /** The reducer. Every case but SET_LOADING recomputes the totals from the new lines. */
  function Reduce(state: CartState, action: CartAction): (r: CartState)
    ensures !action.SetLoading? ==> Consistent(r)
    ensures action.SetLoading? ==>
      r.items == state.items && r.total == state.total && r.itemCount == state.itemCount
    ensures r.isLoading == match action
      case SetLoading(b) => b
      case SetCart(_) => false
      case _ => state.isLoading
    ensures action.SetCart? ==> r.items == action.lines
    ensures action.ClearCart? ==> r.items == [] && r.total == 0 && r.itemCount == 0
  {
    match action
    case SetLoading(loading) => state.(isLoading := loading)
    case SetCart(lines) =>
      state.(items := lines, total := Total(lines), itemCount := ItemCount(lines), isLoading := false)
    case AddItem(item) =>
      var newItems :=
        if Find(state.items, item.productId).Some? then MergeQuantity(state.items, item.productId, item.quantity)
        else state.items + [item];
      state.(items := newItems, total := Total(newItems), itemCount := ItemCount(newItems))
    case RemoveItem(productId) =>
      var filtered := WithoutProduct(state.items, productId);
      state.(items := filtered, total := Total(filtered), itemCount := ItemCount(filtered))
    case UpdateQuantity(productId, quantity) =>
      var updated := PositiveLines(SetQuantity(state.items, productId, quantity));
      state.(items := updated, total := Total(updated), itemCount := ItemCount(updated))
    case ClearCart => state.(items := [], total := 0, itemCount := 0)
  }

  /** SET_LOADING keeps a consistent state consistent, so every reachable state is consistent. */
  lemma ReduceKeepsConsistent(s: CartState, a: CartAction)
    requires Consistent(s)
    ensures Consistent(Reduce(s, a))
  {
  }

  // ---------------------------------------------------------------------
  // Sums over concatenations

  lemma {:induction false} TotalsAppend(a: seq<CartItem>, b: seq<CartItem>)
    ensures Total(a + b) == Total(a) + Total(b)
    ensures ItemCount(a + b) == ItemCount(a) + ItemCount(b)
  {
    if b == [] {
      assert a + b == a;
    } else {
      var last := |b| - 1;
      assert (a + b)[..|a + b| - 1] == a + b[..last];
      assert (a + b)[|a + b| - 1] == b[last];
      TotalsAppend(a, b[..last]);
    }
  }

  /** The sums split around line `k`. */
  lemma TotalsAround(items: seq<CartItem>, k: int)
    requires 0 <= k < |items|
    ensures Total(items) == Total(items[..k]) + LineTotal(items[k]) + Total(items[k + 1..])
    ensures ItemCount(items) == ItemCount(items[..k]) + items[k].quantity + ItemCount(items[k + 1..])
  {
    assert items == items[..k] + [items[k]] + items[k + 1..];
    TotalsAppend(items[..k] + [items[k]], items[k + 1..]);
    TotalsAppend(items[..k], [items[k]]);
    assert [items[k]][..0] == [];
  }

  /** In a cart without duplicate products, the line at `k` is the only one for its product. */
  lemma OnlyLineFor(items: seq<CartItem>, k: int, i: int)
    requires UniqueIds(items) && 0 <= k < |items| && 0 <= i < |items|
    ensures items[i].productId == items[k].productId <==> i == k
  {
  }

  // ---------------------------------------------------------------------
  // ADD_ITEM

  /** ADD_ITEM for a product already in the cart appends nothing: it adds the payload's quantity to every line for that product and leaves the others alone. */
  lemma AddExistingMerges(s: CartState, item: CartItem)
    requires exists k :: 0 <= k < |s.items| && s.items[k].productId == item.productId
    ensures |Reduce(s, AddItem(item)).items| == |s.items|
    ensures forall i :: 0 <= i < |s.items| ==>
      Reduce(s, AddItem(item)).items[i] ==
        if s.items[i].productId == item.productId
        then s.items[i].(quantity := s.items[i].quantity + item.quantity)
        else s.items[i]
  {
  }

  /** Replacing the line at `k` moves each sum by the difference between the new line and the old. */
  lemma TotalsReplace(items: seq<CartItem>, k: int, line: CartItem)
    requires 0 <= k < |items|
    ensures Total(items[k := line]) == Total(items) - LineTotal(items[k]) + LineTotal(line)
    ensures ItemCount(items[k := line]) == ItemCount(items) - items[k].quantity + line.quantity
  {
    var updated := items[k := line];
    TotalsAround(items, k);
    TotalsAround(updated, k);
    assert updated[..k] == items[..k];
    assert updated[k + 1..] == items[k + 1..];
  }

  lemma LineTotalGrows(x: CartItem, extra: int)
    ensures LineTotal(x.(quantity := x.quantity + extra)) == LineTotal(x) + x.price * extra
  {
  }

  /** With unique product ids, the merge map changes the line at `k` only. */
  lemma MergeOneLine(items: seq<CartItem>, k: int, extra: int)
    requires UniqueIds(items) && 0 <= k < |items|
    ensures MergeQuantity(items, items[k].productId, extra) ==
      items[k := items[k].(quantity := items[k].quantity + extra)]
  {
    var line := items[k].(quantity := items[k].quantity + extra);
    var merged := MergeQuantity(items, items[k].productId, extra);
    forall i | 0 <= i < |items| ensures merged[i] == items[k := line][i] {
      OnlyLineFor(items, k, i);
    }
  }

  /** With unique product ids, ADD_ITEM for a present product changes only that product's line. */
  lemma AddExistingOneLine(s: CartState, item: CartItem, k: int)
    requires UniqueIds(s.items)
    requires 0 <= k < |s.items| && s.items[k].productId == item.productId
    ensures Reduce(s, AddItem(item)).items ==
      s.items[k := s.items[k].(quantity := s.items[k].quantity + item.quantity)]
  {
    assert Find(s.items, item.productId).Some?;
    MergeOneLine(s.items, k, item.quantity);
  }

  /** With unique product ids, ADD_ITEM for a present product grows the item count by the payload's quantity and the total by that quantity at the line's price. */
  lemma AddExistingTotals(s: CartState, item: CartItem, k: int)
    requires Consistent(s) && UniqueIds(s.items)
    requires 0 <= k < |s.items| && s.items[k].productId == item.productId
    ensures Reduce(s, AddItem(item)).itemCount == s.itemCount + item.quantity
    ensures Reduce(s, AddItem(item)).total == s.total + s.items[k].price * item.quantity
  {
    var line := s.items[k].(quantity := s.items[k].quantity + item.quantity);
    AddExistingOneLine(s, item, k);
    TotalsReplace(s.items, k, line);
    LineTotalGrows(s.items[k], item.quantity);
  }

  /** ADD_ITEM for a product not in the cart appends the payload as the last line, leaves the earlier lines as they were, and grows the totals by the payload's line. */
  lemma AddNewAppends(s: CartState, item: CartItem)
    requires forall i :: 0 <= i < |s.items| ==> s.items[i].productId != item.productId
    ensures Reduce(s, AddItem(item)).items == s.items + [item]
    ensures Reduce(s, AddItem(item)).total == Total(s.items) + LineTotal(item)
    ensures Reduce(s, AddItem(item)).itemCount == ItemCount(s.items) + item.quantity
  {
    assert (s.items + [item])[..|s.items|] == s.items;
  }

  // ---------------------------------------------------------------------
  // REMOVE_ITEM

  /** After REMOVE_ITEM no line is for that product, and what remains is exactly the other lines, in their original order. */
  lemma RemoveDropsProduct(s: CartState, productId: string)
    ensures forall i :: 0 <= i < |Reduce(s, RemoveItem(productId)).items| ==>
      Reduce(s, RemoveItem(productId)).items[i].productId != productId
    ensures forall x :: x in Reduce(s, RemoveItem(productId)).items <==> x in s.items && x.productId != productId
    ensures IsSubsequence(Reduce(s, RemoveItem(productId)).items, s.items)
    ensures forall x ::
      multiset(Reduce(s, RemoveItem(productId)).items)[x] == if x.productId != productId then multiset(s.items)[x] else 0
  {
    var r := Reduce(s, RemoveItem(productId));
    FilterMembers(s.items, (x: CartItem) => x.productId != productId);
    forall x | x in s.items && x.productId != productId ensures x in r.items {
      var i :| 0 <= i < |s.items| && s.items[i] == x;
    }
    forall x ensures multiset(r.items)[x] == if x.productId != productId then multiset(s.items)[x] else 0 {
      FilterCount(s.items, (x: CartItem) => x.productId != productId, x);
    }
  }

  /** With unique product ids, the REMOVE_ITEM filter drops exactly the line at `k`. */
  lemma {:induction false} FilterOutOneLine(items: seq<CartItem>, k: int)
    requires UniqueIds(items) && 0 <= k < |items|
    ensures WithoutProduct(items, items[k].productId) == items[..k] + items[k + 1..]
  {
    var productId := items[k].productId;
    var keep := (x: CartItem) => x.productId != productId;
    var before, after := items[..k], items[k + 1..];
    assert items == before + [items[k]] + after;
    FilterAppend(before + [items[k]], after, keep);
    FilterAppend(before, [items[k]], keep);
    forall i | 0 <= i < |before| ensures keep(before[i]) { OnlyLineFor(items, k, i); }
    forall i | 0 <= i < |after| ensures keep(after[i]) { OnlyLineFor(items, k, k + 1 + i); }
    FilterKeepsAll(before, keep);
    FilterKeepsAll(after, keep);
    assert Filter([items[k]], keep) == [];
  }

  /** With unique product ids, REMOVE_ITEM of the line at `k` yields the cart without that line and lowers the totals by it. */
  lemma RemoveOneLine(s: CartState, k: int)
    requires Consistent(s) && UniqueIds(s.items) && 0 <= k < |s.items|
    ensures Reduce(s, RemoveItem(s.items[k].productId)).items == s.items[..k] + s.items[k + 1..]
    ensures Reduce(s, RemoveItem(s.items[k].productId)).total == s.total - LineTotal(s.items[k])
    ensures Reduce(s, RemoveItem(s.items[k].productId)).itemCount == s.itemCount - s.items[k].quantity
  {
    FilterOutOneLine(s.items, k);
    TotalsAround(s.items, k);
    TotalsAppend(s.items[..k], s.items[k + 1..]);
  }

  // ---------------------------------------------------------------------
  // UPDATE_QUANTITY

  /** On the lines: a positive target quantity lands on a line for the product, a non-positive one leaves no line for it. */
  lemma UpdatedTarget(items: seq<CartItem>, productId: string, quantity: int)
    ensures var u := PositiveLines(SetQuantity(items, productId, quantity));
      && (quantity > 0 && (exists k :: 0 <= k < |items| && items[k].productId == productId) ==>
            exists i :: 0 <= i < |u| && u[i].productId == productId && u[i].quantity == quantity)
      && (quantity <= 0 ==> forall i :: 0 <= i < |u| ==> u[i].productId != productId)
  {
    var mapped := SetQuantity(items, productId, quantity);
    var u := PositiveLines(mapped);
    if quantity > 0 && exists k :: 0 <= k < |items| && items[k].productId == productId {
      var k :| 0 <= k < |items| && items[k].productId == productId;
      FilterMembers(mapped, (x: CartItem) => x.quantity > 0);
      assert mapped[k] in u;
      var i :| 0 <= i < |u| && u[i] == mapped[k];
    }
    if quantity <= 0 {
      forall i | 0 <= i < |u| ensures u[i].productId != productId {
        FilterMembers(mapped, (x: CartItem) => x.quantity > 0);
        assert u[i] in mapped;
      }
    }
  }

  /** On the lines: other products keep exactly their lines with a positive quantity, each as often as before; every mapped line with a positive quantity keeps its count. */
  lemma UpdatedOthers(items: seq<CartItem>, productId: string, quantity: int)
    ensures forall x: CartItem :: x.productId != productId ==>
      (x in PositiveLines(SetQuantity(items, productId, quantity)) <==> x in items && x.quantity > 0)
    ensures forall x: CartItem ::
      multiset(PositiveLines(SetQuantity(items, productId, quantity)))[x] ==
        if x.quantity > 0 then multiset(SetQuantity(items, productId, quantity))[x] else 0
  {
    var mapped := SetQuantity(items, productId, quantity);
    var u := PositiveLines(mapped);
    FilterMembers(mapped, (x: CartItem) => x.quantity > 0);
    forall x: CartItem | x.productId != productId && x in items && x.quantity > 0 ensures x in u {
      var i :| 0 <= i < |items| && items[i] == x;
      assert mapped[i] == x;
    }
    forall x: CartItem | x.productId != productId && x in u ensures x in items {
      var i :| 0 <= i < |mapped| && mapped[i] == x;
      assert items[i] == x;
    }
    forall x: CartItem ensures multiset(u)[x] == if x.quantity > 0 then multiset(mapped)[x] else 0 {
      FilterCount(mapped, (y: CartItem) => y.quantity > 0, x);
    }
  }

  /** After UPDATE_QUANTITY every line has a positive quantity; a positive target quantity is set on a line for the product, a non-positive one removes the product. */
  lemma UpdateSetsOrRemoves(s: CartState, productId: string, quantity: int)
    ensures var r := Reduce(s, UpdateQuantity(productId, quantity));
      && AllPositive(r.items)
      && (quantity > 0 && (exists k :: 0 <= k < |s.items| && s.items[k].productId == productId) ==>
            exists i :: 0 <= i < |r.items| && r.items[i].productId == productId && r.items[i].quantity == quantity)
      && (quantity <= 0 ==> forall i :: 0 <= i < |r.items| ==> r.items[i].productId != productId)
  {
    UpdatedTarget(s.items, productId, quantity);
  }

  /** UPDATE_QUANTITY keeps exactly the positive lines of the other products, each as often as before, and keeps the order of the lines. */
  lemma UpdateKeepsOtherLines(s: CartState, productId: string, quantity: int)
    ensures var r := Reduce(s, UpdateQuantity(productId, quantity));
      && (forall x: CartItem :: x.productId != productId ==> (x in r.items <==> x in s.items && x.quantity > 0))
      && IsSubsequence(r.items, SetQuantity(s.items, productId, quantity))
      && (forall x: CartItem ::
            multiset(r.items)[x] == if x.quantity > 0 then multiset(SetQuantity(s.items, productId, quantity))[x] else 0)
  {
    UpdatedOthers(s.items, productId, quantity);
  }

  /** The quantity the cart drawer's minus button sends: `Math.max(1, quantity - 1)`. */
  function MinusButton(quantity: int): int { if 1 > quantity - 1 then 1 else quantity - 1 }

  /** The quantity the cart drawer's plus button sends. */
  function PlusButton(quantity: int): int { quantity + 1 }

  /** The drawer's buttons never drop a line: in a cart of positive lines with unique ids, pressing minus or plus on line `k` changes only that line's quantity and moves the item count by the same amount. */
  lemma {:induction false} StepperKeepsLines(s: CartState, k: int, plus: bool)
    requires Consistent(s) && UniqueIds(s.items) && AllPositive(s.items) && 0 <= k < |s.items|
    ensures var q := if plus then PlusButton(s.items[k].quantity) else MinusButton(s.items[k].quantity);
      var r := Reduce(s, UpdateQuantity(s.items[k].productId, q));
      && q >= 1
      && r.items == s.items[k := s.items[k].(quantity := q)]
      && r.itemCount == s.itemCount - s.items[k].quantity + q
  {
    var q := if plus then PlusButton(s.items[k].quantity) else MinusButton(s.items[k].quantity);
    var productId := s.items[k].productId;
    var mapped := SetQuantity(s.items, productId, q);
    var line := s.items[k].(quantity := q);
    forall i | 0 <= i < |s.items| ensures mapped[i] == s.items[k := line][i] {
      OnlyLineFor(s.items, k, i);
    }
    assert mapped == s.items[k := line];
    FilterKeepsAll(mapped, (x: CartItem) => x.quantity > 0);
    TotalsReplace(s.items, k, line);
  }

  // ---------------------------------------------------------------------
  // Unique product ids

  lemma {:induction false} FilterKeepsUnique(items: seq<CartItem>, keep: CartItem -> bool)
    requires UniqueIds(items)
    ensures UniqueIds(Filter(items, keep))
  {
    if items != [] {
      FilterKeepsUnique(items[1..], keep);
      var rest := Filter(items[1..], keep);
      assert forall i :: 0 <= i < |rest| ==> rest[i].productId != items[0].productId by {
        FilterMembers(items[1..], keep);
        forall i | 0 <= i < |rest| ensures rest[i].productId != items[0].productId {
          var j :| 0 <= j < |items[1..]| && items[1..][j] == rest[i];
          assert items[j + 1] == rest[i];
        }
      }
      if keep(items[0]) {
        var r := [items[0]] + rest;
        forall i, j | 0 <= i < j < |r| ensures r[i].productId != r[j].productId {
          if i > 0 { assert r[i] == rest[i - 1] && r[j] == rest[j - 1]; }
        }
      }
    }
  }

  /** ADD_ITEM keeps product ids unique. */
  lemma AddKeepsUnique(s: CartState, item: CartItem)
    requires UniqueIds(s.items)
    ensures UniqueIds(Reduce(s, AddItem(item)).items)
  {
    if Find(s.items, item.productId).None? {
      AddNewAppends(s, item);
    } else {
      assert Reduce(s, AddItem(item)).items == MergeQuantity(s.items, item.productId, item.quantity);
    }
  }

  /** ADD_ITEM, REMOVE_ITEM, UPDATE_QUANTITY and CLEAR_CART (and SET_LOADING) keep product ids unique. */
  lemma ReduceKeepsUnique(s: CartState, a: CartAction)
    requires UniqueIds(s.items) && !a.SetCart?
    ensures UniqueIds(Reduce(s, a).items)
  {
    match a
    case AddItem(item) =>
      AddKeepsUnique(s, item);
    case RemoveItem(productId) =>
      FilterKeepsUnique(s.items, (x: CartItem) => x.productId != productId);
      assert Reduce(s, a).items == WithoutProduct(s.items, productId);
    case UpdateQuantity(productId, quantity) =>
      FilterKeepsUnique(SetQuantity(s.items, productId, quantity), (x: CartItem) => x.quantity > 0);
      assert Reduce(s, a).items == PositiveLines(SetQuantity(s.items, productId, quantity));
    case _ =>
  }

  /** SET_CART takes its lines as given, so it does not establish unique ids. */
  lemma SetCartAllowsDuplicates(s: CartState)
    ensures var line := CartItem("1", "p", "Salmon", 1299, None, 1);
      !UniqueIds(Reduce(s, SetCart([line, line])).items)
  {
    var line := CartItem("1", "p", "Salmon", 1299, None, 1);
    assert [line, line][0].productId == [line, line][1].productId;
  }

  // ---------------------------------------------------------------------
  // addToCart

  /** The line `addToCart` builds for a product: quantity 1, `stamp` standing for the creation time in its label. */
  function NewLine(product: Product, stamp: string): (r: CartItem)
    ensures r.productId == product.id && r.quantity == 1
  {
    CartItem(product.id + "-" + stamp, product.id, product.name, product.price, product.image, 1)
  }

  /**
   * `addToCart(product)`: dispatch ADD_ITEM with a fresh one-unit line. A
   * product already in the cart gets one more unit on its line; any other
   * product gets the new line at the end.
   */
  function AddToCart(s: CartState, product: Product, stamp: string): (r: CartState)
    ensures Consistent(r) && r.isLoading == s.isLoading
    ensures (exists k :: 0 <= k < |s.items| && s.items[k].productId == product.id) ==>
      |r.items| == |s.items| &&
      forall i :: 0 <= i < |s.items| ==>
        r.items[i] ==
          if s.items[i].productId == product.id
          then s.items[i].(quantity := s.items[i].quantity + 1)
          else s.items[i]
    ensures (forall i :: 0 <= i < |s.items| ==> s.items[i].productId != product.id) ==>
      r.items == s.items + [NewLine(product, stamp)]
  {
    var line := NewLine(product, stamp);
    if Find(s.items, product.id).Some? then
      AddExistingMerges(s, line);
      Reduce(s, AddItem(line))
    else
      AddNewAppends(s, line);
      Reduce(s, AddItem(line))
  }

  /** `addToCart(product)` once per stamp, in order. */
  function AddToCartRepeatedly(s: CartState, product: Product, stamps: seq<string>): CartState
  {
    if stamps == [] then s
    else AddToCart(AddToCartRepeatedly(s, product, stamps[..|stamps| - 1]), product, stamps[|stamps| - 1])
  }

  /** Adding to a cart whose last line is the only one for the item's product merges into that last line. */
  lemma MergeIntoLastLine(s: CartState, base: seq<CartItem>, line: CartItem, item: CartItem)
    requires s.items == base + [line] && line.productId == item.productId
    requires forall i :: 0 <= i < |base| ==> base[i].productId != item.productId
    ensures Reduce(s, AddItem(item)).items == base + [line.(quantity := line.quantity + item.quantity)]
  {
    assert s.items[|base|] == line;
    AddExistingMerges(s, item);
    var r := Reduce(s, AddItem(item));
    forall i | 0 <= i < |r.items| ensures r.items[i] == (base + [line.(quantity := line.quantity + item.quantity)])[i] {
      if i < |base| { assert s.items[i] == base[i]; }
    }
  }

  /** Calling `addToCart` n >= 1 times for a product the cart lacks appends one line for it, with quantity n and the first call's label. */
  lemma {:induction false} AddToCartAccumulates(s: CartState, product: Product, stamps: seq<string>)
    requires |stamps| >= 1
    requires forall i :: 0 <= i < |s.items| ==> s.items[i].productId != product.id
    ensures AddToCartRepeatedly(s, product, stamps).items ==
      s.items + [NewLine(product, stamps[0]).(quantity := |stamps|)]
  {
    var n := |stamps|;
    var prefix := stamps[..n - 1];
    if n == 1 {
      assert AddToCartRepeatedly(s, product, prefix) == s;
      AddNewAppends(s, NewLine(product, stamps[0]));
    } else {
      assert prefix[0] == stamps[0];
      AddToCartAccumulates(s, product, prefix);
      var mid := AddToCartRepeatedly(s, product, prefix);
      var line := NewLine(product, stamps[0]).(quantity := n - 1);
      MergeIntoLastLine(mid, s.items, line, NewLine(product, stamps[n - 1]));
      assert line.(quantity := line.quantity + 1) == NewLine(product, stamps[0]).(quantity := n);
    }
  }

  lemma SingleLineTotals(line: CartItem)
    ensures Total([line]) == LineTotal(line) && ItemCount([line]) == line.quantity
  {
    assert [line][..0] == [];
  }

  /** From the initial cart, n calls of `addToCart` for one product give a single line with quantity n, an item count of n and a total of n times its price. */
  lemma AddToCartFromEmpty(product: Product, stamps: seq<string>)
    requires |stamps| >= 1
    ensures var r := AddToCartRepeatedly(InitialState, product, stamps);
      && r.items == [NewLine(product, stamps[0]).(quantity := |stamps|)]
      && r.itemCount == |stamps|
      && r.total == product.price * |stamps|
  {
    AddToCartAccumulates(InitialState, product, stamps);
    var line := NewLine(product, stamps[0]).(quantity := |stamps|);
    var r := AddToCartRepeatedly(InitialState, product, stamps);
    assert Consistent(r) by {
      var n := |stamps|;
      assert r == AddToCart(AddToCartRepeatedly(InitialState, product, stamps[..n - 1]), product, stamps[n - 1]);
    }
    SingleLineTotals(line);
  }
}
