/**
 * The shopping cart: an ordered list of lines, one per product id, each with
 * a positive quantity. Adding a product whose id already has a line adds to
 * that line's quantity; otherwise a new line is appended.
 */
module ShoppingCart {
  import opened Wrappers
  import opened Domain

  /** A product paired with how many units of it are in the cart. */
  datatype CartLine = CartLine(product: Product, quantity: int)

  /** The id of a line: the key lines are merged by (not object identity). */
  function IdOf(line: CartLine): int
  {
    line.product.id
  }

  /** The ids that have a line. */
  function Ids(lines: seq<CartLine>): set<int>
  {
    if |lines| == 0 then {} else {IdOf(lines[0])} + Ids(lines[1..])
  }

  /** At most one line per product id. */
  predicate UniqueIds(lines: seq<CartLine>)
  {
    forall i, j :: 0 <= i < j < |lines| ==> IdOf(lines[i]) != IdOf(lines[j])
  }

  predicate PositiveQuantities(lines: seq<CartLine>)
  {
    forall i :: 0 <= i < |lines| ==> lines[i].quantity > 0
  }

  /** The cart's invariant. */
  predicate WellFormed(lines: seq<CartLine>)
  {
    UniqueIds(lines) && PositiveQuantities(lines)
  }

  /** The position of the first line for product `id`, if any. */
  function FindLine(lines: seq<CartLine>, id: int): (r: Option<nat>)
    ensures r.Some? ==> r.value < |lines| && IdOf(lines[r.value]) == id
    ensures r.Some? ==> forall j :: 0 <= j < r.value ==> IdOf(lines[j]) != id
    ensures r.None? <==> id !in Ids(lines)
  {
    if |lines| == 0 then None
    else if IdOf(lines[0]) == id then Some(0)
    else
      match FindLine(lines[1..], id)
      case None => None
      case Some(i) => Some(i + 1)
  }

  /** Total units of product `id` over all lines: the cart read as a bag. */
  function QuantityOf(lines: seq<CartLine>, id: int): int
  {
    if |lines| == 0 then 0
    else (if IdOf(lines[0]) == id then lines[0].quantity else 0) + QuantityOf(lines[1..], id)
  }

  /** Sum of price times quantity over the lines: zero for an empty cart. */
  function TotalValue(lines: seq<CartLine>): (r: int)
    ensures |lines| == 0 ==> r == 0
  {
    if |lines| == 0 then 0
    else lines[0].product.price * lines[0].quantity + TotalValue(lines[1..])
  }

  /** The lines after `AddItem(product, quantity)`. */
  function AddedItem(lines: seq<CartLine>, product: Product, quantity: int): seq<CartLine>
  {
    match FindLine(lines, product.id)
    case None => lines + [CartLine(product, quantity)]
    case Some(i) => lines[i := lines[i].(quantity := lines[i].quantity + quantity)]
  }

  /** The lines after `RemoveLine(product)`: every line for that id is dropped. */
  function RemovedLine(lines: seq<CartLine>, id: int): (r: seq<CartLine>)
    ensures forall line :: line in r <==> line in lines && IdOf(line) != id
  {
    if |lines| == 0 then []
    else
      var rest := RemovedLine(lines[1..], id);
      assert forall line :: line in lines <==> line == lines[0] || line in lines[1..] by {
        assert lines == [lines[0]] + lines[1..];
      }
      (if IdOf(lines[0]) == id then [] else [lines[0]]) + rest
  }

  /** The lines after a sequence of `AddItem` calls, each given as a line. */
  function AddAll(lines: seq<CartLine>, adds: seq<CartLine>): seq<CartLine>
    decreases |adds|
  {
    if |adds| == 0 then lines
    else AddAll(AddedItem(lines, adds[0].product, adds[0].quantity), adds[1..])
  }

  // ---------------------------------------------------------------------------
  // Helper facts about the folds

  lemma {:induction false} IdsAt(lines: seq<CartLine>, id: int)
    ensures id in Ids(lines) <==> exists j :: 0 <= j < |lines| && IdOf(lines[j]) == id
  {
    if |lines| > 0 {
      IdsAt(lines[1..], id);
      if exists j :: 0 <= j < |lines| && IdOf(lines[j]) == id {
        var j :| 0 <= j < |lines| && IdOf(lines[j]) == id;
        if j > 0 { assert IdOf(lines[1..][j - 1]) == id; }
      }
      if exists j :: 0 <= j < |lines[1..]| && IdOf(lines[1..][j]) == id {
        var j :| 0 <= j < |lines[1..]| && IdOf(lines[1..][j]) == id;
        assert IdOf(lines[j + 1]) == id;
      }
    }
  }

  lemma {:induction false} IdsOfAppend(a: seq<CartLine>, b: seq<CartLine>)
    ensures Ids(a + b) == Ids(a) + Ids(b)
  {
    if |a| > 0 {
      assert (a + b)[1..] == a[1..] + b;
      IdsOfAppend(a[1..], b);
    } else {
      assert a + b == b;
    }
  }

  lemma {:induction false} QuantityOfAppend(a: seq<CartLine>, b: seq<CartLine>, id: int)
    ensures QuantityOf(a + b, id) == QuantityOf(a, id) + QuantityOf(b, id)
  {
    if |a| > 0 {
      assert (a + b)[1..] == a[1..] + b;
      QuantityOfAppend(a[1..], b, id);
    } else {
      assert a + b == b;
    }
  }

  lemma {:induction false} QuantityOfUpdate(lines: seq<CartLine>, i: nat, line: CartLine, id: int)
    requires i < |lines| && IdOf(line) == IdOf(lines[i])
    ensures QuantityOf(lines[i := line], id) ==
            QuantityOf(lines, id) + (if id == IdOf(line) then line.quantity - lines[i].quantity else 0)
  {
    if i == 0 {
      assert lines[i := line][1..] == lines[1..];
    } else {
      assert lines[i := line][1..] == lines[1..][i - 1 := line];
      QuantityOfUpdate(lines[1..], i - 1, line, id);
    }
  }

  /** The total is never negative while no price or quantity is. */
  lemma {:induction false} TotalValueNonNegative(lines: seq<CartLine>)
    requires forall i :: 0 <= i < |lines| ==> lines[i].product.price >= 0 && lines[i].quantity >= 0
    ensures TotalValue(lines) >= 0
  {
    if |lines| > 0 {
      assert forall i :: 0 <= i < |lines[1..]| ==> lines[1..][i] == lines[i + 1];
      TotalValueNonNegative(lines[1..]);
    }
  }

  lemma {:induction false} TotalValueAppend(a: seq<CartLine>, b: seq<CartLine>)
    ensures TotalValue(a + b) == TotalValue(a) + TotalValue(b)
  {
    if |a| > 0 {
      assert (a + b)[1..] == a[1..] + b;
      TotalValueAppend(a[1..], b);
    } else {
      assert a + b == b;
    }
  }

  lemma {:induction false} TotalValueUpdate(lines: seq<CartLine>, i: nat, line: CartLine)
    requires i < |lines|
    ensures TotalValue(lines[i := line]) ==
            TotalValue(lines) - lines[i].product.price * lines[i].quantity + line.product.price * line.quantity
  {
    if i == 0 {
      assert lines[i := line][1..] == lines[1..];
    } else {
      assert lines[i := line][1..] == lines[1..][i - 1 := line];
      TotalValueUpdate(lines[1..], i - 1, line);
    }
  }

  lemma {:induction false} RemovedAbsent(lines: seq<CartLine>, id: int)
    requires id !in Ids(lines)
    ensures RemovedLine(lines, id) == lines
  {
    if |lines| > 0 {
      RemovedAbsent(lines[1..], id);
      assert lines == [lines[0]] + lines[1..];
    }
  }

  lemma HeadIdNotInTail(lines: seq<CartLine>)
    requires UniqueIds(lines) && |lines| > 0
    ensures IdOf(lines[0]) !in Ids(lines[1..])
  {
    IdsAt(lines[1..], IdOf(lines[0]));
    forall j | 0 <= j < |lines[1..]| ensures IdOf(lines[1..][j]) != IdOf(lines[0]) {
      assert lines[1..][j] == lines[j + 1];
    }
  }

  // ---------------------------------------------------------------------------
  // Properties of the cart operations

  /** With unique ids, the cart has exactly one line per distinct id. */
  lemma {:induction false} LineCountIsIdCount(lines: seq<CartLine>)
    requires UniqueIds(lines)
    ensures |lines| == |Ids(lines)|
  {
    if |lines| > 0 {
      HeadIdNotInTail(lines);
      LineCountIsIdCount(lines[1..]);
    }
  }

  /** With unique ids, the bag reading of a line is that line's quantity. */
  lemma {:induction false} QuantityOfLine(lines: seq<CartLine>, i: nat)
    requires UniqueIds(lines) && i < |lines|
    ensures QuantityOf(lines, IdOf(lines[i])) == lines[i].quantity
  {
    if i == 0 {
      HeadIdNotInTail(lines);
      QuantityOfAbsent(lines[1..], IdOf(lines[0]));
    } else {
      QuantityOfLine(lines[1..], i - 1);
    }
  }

  /** A product id without a line has quantity zero. */
  lemma {:induction false} QuantityOfAbsent(lines: seq<CartLine>, id: int)
    requires id !in Ids(lines)
    ensures QuantityOf(lines, id) == 0
  {
    if |lines| > 0 {
      QuantityOfAbsent(lines[1..], id);
    }
  }

  /**
   * `AddItem` merges by product id: it adds `quantity` units of that id and
   * no other, appends a line only for a new id, and leaves every other line
   * where it was.
   */
  lemma {:induction false} AddItemMerges(lines: seq<CartLine>, product: Product, quantity: int)
    ensures var r := AddedItem(lines, product, quantity);
      |r| == |lines| + (if product.id in Ids(lines) then 0 else 1) &&
      (forall j :: 0 <= j < |lines| && IdOf(lines[j]) != product.id ==> r[j] == lines[j]) &&
      (forall id :: QuantityOf(r, id) == QuantityOf(lines, id) + (if id == product.id then quantity else 0))
  {
    var r := AddedItem(lines, product, quantity);
    match FindLine(lines, product.id)
    case None =>
      forall id ensures QuantityOf(r, id) == QuantityOf(lines, id) + (if id == product.id then quantity else 0) {
        QuantityOfAppend(lines, [CartLine(product, quantity)], id);
      }
    case Some(i) =>
      forall id ensures QuantityOf(r, id) == QuantityOf(lines, id) + (if id == product.id then quantity else 0) {
        QuantityOfUpdate(lines, i, lines[i].(quantity := lines[i].quantity + quantity), id);
      }
  }

  /** `AddItem` with a positive quantity keeps the cart's invariant. */
  lemma {:induction false} AddItemKeepsWellFormed(lines: seq<CartLine>, product: Product, quantity: int)
    requires WellFormed(lines) && quantity > 0
    ensures WellFormed(AddedItem(lines, product, quantity))
  {
    var r := AddedItem(lines, product, quantity);
    match FindLine(lines, product.id)
    case None =>
      IdsAt(lines, product.id);
    case Some(i) =>
  }

  /** After `AddItem` the ids with a line are the old ones plus the product's. */
  lemma {:induction false} AddItemIds(lines: seq<CartLine>, product: Product, quantity: int)
    ensures Ids(AddedItem(lines, product, quantity)) == Ids(lines) + {product.id}
  {
    var r := AddedItem(lines, product, quantity);
    match FindLine(lines, product.id)
    case None =>
      IdsOfAppend(lines, [CartLine(product, quantity)]);
    case Some(i) =>
      assert |r| == |lines|;
      assert forall j :: 0 <= j < |r| ==> IdOf(r[j]) == IdOf(lines[j]);
      forall k ensures k in Ids(r) <==> k in Ids(lines) {
        IdsAt(r, k);
        IdsAt(lines, k);
      }
      IdsAt(lines, product.id);
  }

  /**
   * The price a merged unit is charged at: that of the product already on the
   * line for this id, or the added product's own price for a new line.
   */
  function UnitPrice(lines: seq<CartLine>, product: Product): int
  {
    match FindLine(lines, product.id)
    case None => product.price
    case Some(i) => lines[i].product.price
  }

  /** `AddItem` raises the total by the quantity times the line's unit price. */
  lemma {:induction false} AddItemTotal(lines: seq<CartLine>, product: Product, quantity: int)
    ensures TotalValue(AddedItem(lines, product, quantity)) ==
            TotalValue(lines) + quantity * UnitPrice(lines, product)
  {
    match FindLine(lines, product.id)
    case None =>
      TotalValueAppend(lines, [CartLine(product, quantity)]);
      TotalValueSingle(CartLine(product, quantity));
    case Some(i) =>
      var line := lines[i];
      TotalValueUpdate(lines, i, line.(quantity := line.quantity + quantity));
      Distribute(line.product.price, line.quantity, quantity);
  }

  lemma TotalValueSingle(line: CartLine)
    ensures TotalValue([line]) == line.quantity * line.product.price
  {
    assert [line][1..] == [];
  }

  lemma Distribute(price: int, a: int, b: int)
    ensures price * (a + b) == price * a + b * price
  {
  }

  /** `RemoveLine` for a product with no line changes nothing. */
  lemma RemoveLineAbsent(lines: seq<CartLine>, id: int)
    requires id !in Ids(lines)
    ensures RemovedLine(lines, id) == lines
    ensures TotalValue(RemovedLine(lines, id)) == TotalValue(lines)
  {
    RemovedAbsent(lines, id);
  }

  /**
   * In a cart with unique ids, `RemoveLine` deletes exactly the product's
   * line and keeps the others in order.
   */
  lemma {:induction false} RemoveLineDropsOne(lines: seq<CartLine>, id: int, i: nat)
    requires UniqueIds(lines) && FindLine(lines, id) == Some(i)
    ensures RemovedLine(lines, id) == lines[..i] + lines[i + 1..]
  {
    if i == 0 {
      HeadIdNotInTail(lines);
      RemovedAbsent(lines[1..], id);
      RemovedHead(lines, id);
    } else {
      UniqueTail(lines);
      RemoveLineDropsOne(lines[1..], id, i - 1);
      RemovedHead(lines, id);
      ConsSlices(lines, i);
    }
  }

  /** One unfolding of `RemovedLine` at the head of the cart. */
  lemma RemovedHead(lines: seq<CartLine>, id: int)
    requires |lines| > 0
    ensures RemovedLine(lines, id) ==
            (if IdOf(lines[0]) == id then [] else [lines[0]]) + RemovedLine(lines[1..], id)
  {
  }

  lemma ConsSlices(lines: seq<CartLine>, i: nat)
    requires 0 < i < |lines|
    ensures [lines[0]] + (lines[1..][..i - 1] + lines[1..][i..]) == lines[..i] + lines[i + 1..]
  {
    assert [lines[0]] + lines[1..][..i - 1] == lines[..i];
    assert lines[1..][i..] == lines[i + 1..];
  }

  lemma UniqueTail(lines: seq<CartLine>)
    requires UniqueIds(lines) && |lines| > 0
    ensures UniqueIds(lines[1..])
  {
    forall a, b | 0 <= a < b < |lines| - 1 ensures IdOf(lines[1..][a]) != IdOf(lines[1..][b]) {
      assert lines[1..][a] == lines[a + 1] && lines[1..][b] == lines[b + 1];
    }
  }

  lemma {:induction false} TotalValueDropOne(lines: seq<CartLine>, i: nat)
    requires i < |lines|
    ensures TotalValue(lines[..i] + lines[i + 1..]) ==
            TotalValue(lines) - lines[i].product.price * lines[i].quantity
  {
    if i > 0 {
      TotalValueDropOne(lines[1..], i - 1);
      assert lines[..i] + lines[i + 1..] == [lines[0]] + (lines[1..][..i - 1] + lines[1..][i..]);
    } else {
      assert lines[..i] + lines[i + 1..] == lines[1..];
    }
  }

  /** Removing a product's line lowers the count by one and the total by that line's value. */
  lemma RemoveLineTotal(lines: seq<CartLine>, id: int, i: nat)
    requires UniqueIds(lines) && FindLine(lines, id) == Some(i)
    ensures |RemovedLine(lines, id)| == |lines| - 1
    ensures TotalValue(RemovedLine(lines, id)) ==
            TotalValue(lines) - lines[i].product.price * lines[i].quantity
  {
    RemoveLineDropsOne(lines, id, i);
    TotalValueDropOne(lines, i);
  }

  /** `RemoveLine` zeroes the product's quantity and keeps every other one. */
  lemma {:induction false} RemoveLineQuantity(lines: seq<CartLine>, id: int, other: int)
    ensures QuantityOf(RemovedLine(lines, id), id) == 0
    ensures other != id ==> QuantityOf(RemovedLine(lines, id), other) == QuantityOf(lines, other)
  {
    if |lines| > 0 {
      RemoveLineQuantity(lines[1..], id, other);
      var head := if IdOf(lines[0]) == id then [] else [lines[0]];
      QuantityOfAppend(head, RemovedLine(lines[1..], id), id);
      QuantityOfAppend(head, RemovedLine(lines[1..], id), other);
    }
  }

  /** `RemoveLine` keeps the cart's invariant. */
  lemma RemoveLineKeepsWellFormed(lines: seq<CartLine>, id: int)
    requires WellFormed(lines)
    ensures WellFormed(RemovedLine(lines, id))
  {
    match FindLine(lines, id)
    case None =>
      RemovedAbsent(lines, id);
    case Some(i) =>
      RemoveLineDropsOne(lines, id, i);
      var r := RemovedLine(lines, id);
      assert |r| == |lines| - 1;
      forall a | 0 <= a < |r| ensures r[a] == lines[if a < i then a else a + 1] {
        if a < i {
          assert r[a] == lines[..i][a];
        } else {
          assert r[a] == lines[i + 1..][a - i];
        }
      }
      forall a, b | 0 <= a < b < |r| ensures IdOf(r[a]) != IdOf(r[b]) {
        assert r[a] == lines[if a < i then a else a + 1];
        assert r[b] == lines[if b < i then b else b + 1];
      }
  }

  /** After `RemoveLine` the ids with a line are the old ones less the product's. */
  lemma {:induction false} RemoveLineIds(lines: seq<CartLine>, id: int)
    ensures Ids(RemovedLine(lines, id)) == Ids(lines) - {id}
  {
    if |lines| > 0 {
      RemoveLineIds(lines[1..], id);
      var head := if IdOf(lines[0]) == id then [] else [lines[0]];
      IdsOfAppend(head, RemovedLine(lines[1..], id));
    }
  }

  /** A sequence of `AddItem` calls with positive quantities keeps the invariant. */
  lemma {:induction false} AddAllKeepsWellFormed(lines: seq<CartLine>, adds: seq<CartLine>)
    requires WellFormed(lines) && PositiveQuantities(adds)
    ensures WellFormed(AddAll(lines, adds))
    decreases |adds|
  {
    if |adds| > 0 {
      AddItemKeepsWellFormed(lines, adds[0].product, adds[0].quantity);
      AddAllKeepsWellFormed(AddedItem(lines, adds[0].product, adds[0].quantity), adds[1..]);
    }
  }

  /** After a sequence of `AddItem` calls, the ids with a line are the old ones plus all ids added. */
  lemma {:induction false} AddAllIds(lines: seq<CartLine>, adds: seq<CartLine>)
    ensures Ids(AddAll(lines, adds)) == Ids(lines) + Ids(adds)
    decreases |adds|
  {
    if |adds| > 0 {
      AddItemIds(lines, adds[0].product, adds[0].quantity);
      AddAllIds(AddedItem(lines, adds[0].product, adds[0].quantity), adds[1..]);
    }
  }

  /**
   * The merge invariant: however the calls repeat or interleave products,
   * an empty cart ends with exactly one line per distinct product id added.
   */
  lemma MergeInvariant(adds: seq<CartLine>)
    requires PositiveQuantities(adds)
    ensures |AddAll([], adds)| == |Ids(adds)|
    ensures WellFormed(AddAll([], adds))
  {
    AddAllKeepsWellFormed([], adds);
    AddAllIds([], adds);
    assert Ids([]) == {};
    LineCountIsIdCount(AddAll([], adds));
  }

  /** Adding products with distinct, new ids appends their lines in call order. */
  lemma {:induction false} AddNewAppends(lines: seq<CartLine>, adds: seq<CartLine>)
    requires UniqueIds(adds) && Ids(lines) !! Ids(adds)
    ensures AddAll(lines, adds) == lines + adds
    decreases |adds|
  {
    if |adds| > 0 {
      var head := adds[0];
      assert AddedItem(lines, head.product, head.quantity) == lines + [head];
      HeadIdNotInTail(adds);
      IdsOfAppend(lines, [head]);
      AddNewAppends(lines + [head], adds[1..]);
      assert (lines + [head]) + adds[1..] == lines + adds;
    }
  }

  /** Adding the same product twice leaves one line holding both quantities. */
  lemma AddTwiceMerges(lines: seq<CartLine>, product: Product, q1: int, q2: int)
    requires WellFormed(lines) && q1 > 0 && q2 > 0
    ensures var r := AddedItem(AddedItem(lines, product, q1), product, q2);
      WellFormed(r) &&
      |r| == |lines| + (if product.id in Ids(lines) then 0 else 1) &&
      QuantityOf(r, product.id) == QuantityOf(lines, product.id) + q1 + q2
  {
    var once := AddedItem(lines, product, q1);
    AddItemKeepsWellFormed(lines, product, q1);
    AddItemKeepsWellFormed(once, product, q2);
    AddItemMerges(lines, product, q1);
    AddItemMerges(once, product, q2);
    AddItemIds(lines, product, q1);
  }

  // ---------------------------------------------------------------------------
  // The cart object

  /** A shopping cart whose line list the methods update in place. */
  class Cart {
    var lines: seq<CartLine>

    ghost predicate Valid()
      reads this
    {
      WellFormed(lines)
    }

    constructor ()
      ensures Valid() && lines == []
    {
      lines := [];
    }

    /**
     * The lines, in order; a sequence value, so callers cannot change the
     * cart through it. A valid cart has one line per distinct product id,
     * each with a positive quantity.
     */
    function Lines(): (r: seq<CartLine>)
      reads this
      ensures r == lines
      ensures Valid() ==> |r| == |Ids(r)| && PositiveQuantities(r)
    {
      assert Valid() ==> |lines| == |Ids(lines)| by {
        if Valid() {
          LineCountIsIdCount(lines);
        }
      }
      lines
    }

    method AddItem(product: Product, quantity: int)
      requires Valid() && quantity > 0
      modifies this
      ensures Valid()
      ensures lines == AddedItem(old(lines), product, quantity)
    {
      AddItemKeepsWellFormed(lines, product, quantity);
      var found := FindLine(lines, product.id);
      match found
      case None =>
        lines := lines + [CartLine(product, quantity)];
      case Some(i) =>
        lines := lines[i := lines[i].(quantity := lines[i].quantity + quantity)];
    }

    method RemoveLine(product: Product)
      requires Valid()
      modifies this
      ensures Valid()
      ensures lines == RemovedLine(old(lines), product.id)
    {
      RemoveLineKeepsWellFormed(lines, product.id);
      lines := RemovedLine(lines, product.id);
    }

    /** The cart's total value; zero for an empty cart. */
    function ComputeTotalValue(): (r: int)
      reads this
      ensures r == TotalValue(lines)
      ensures lines == [] ==> r == 0
    {
      TotalValue(lines)
    }

    method Clear()
      requires Valid()
      modifies this
      ensures Valid() && lines == [] && ComputeTotalValue() == 0
    {
      lines := [];
    }
  }
}
