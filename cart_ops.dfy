/** The effect of each CartStore mutator on the list of line items, as a
    function of the list before the call, and the laws those effects obey. */
module CartOps {
  import opened CartItems
  import opened CartTotals

  /** addItem: merge into the first line with the product's id, or append a new line. */
  function Added(items: seq<CartItem>, p: Product, quantity: int): (r: seq<CartItem>)
    ensures |r| == if HasId(items, p.id) then |items| else |items| + 1
    ensures HasId(r, p.id)
    ensures forall j :: 0 <= j < |items| ==> r[j].id == items[j].id
  {
    var i := FindIndex(items, p.id);
    FindIndexFound(items, p.id);
    assert i >= 0 ==> items[i := items[i].(quantity := items[i].quantity + quantity)][i].id == p.id;
    assert i < 0 ==> (items + [LineOf(p, quantity)])[|items|].id == p.id;
    if i >= 0 then items[i := items[i].(quantity := items[i].quantity + quantity)]
    else items + [LineOf(p, quantity)]
  }

  /** updateQuantity: nothing for an unknown id, a splice for a quantity of 0 or
      less, otherwise an absolute set of the first matching line's quantity. */
  function Updated(items: seq<CartItem>, id: string, quantity: int): (r: seq<CartItem>)
    ensures |r| == if HasId(items, id) && quantity <= 0 then |items| - 1 else |items|
    ensures quantity > 0 ==> forall j :: 0 <= j < |items| ==> r[j].id == items[j].id
  {
    var i := FindIndex(items, id);
    FindIndexFound(items, id);
    if i < 0 then items
    else if quantity <= 0 then items[..i] + items[i + 1..]
    else items[i := items[i].(quantity := quantity)]
  }

  /** removeItem: `items.filter(i => i.id !== id)`. */
  function Removed(items: seq<CartItem>, id: string): (r: seq<CartItem>)
    ensures |r| <= |items|
    ensures forall j :: 0 <= j < |r| ==> r[j].id != id
  {
    if items == [] then []
    else (if items[0].id != id then [items[0]] else []) + Removed(items[1..], id)
  }

  // ---------------------------------------------------------------- addItem

  /** Adding a product already in the cart grows that line's quantity by exactly
      `quantity`, keeps its first-added name, price, image and artist, and
      leaves the length and every other line as they were. */
  lemma AddMerges(items: seq<CartItem>, p: Product, quantity: int, i: int)
    requires 0 <= i < |items| && items[i].id == p.id
    requires forall j :: 0 <= j < i ==> items[j].id != p.id
    ensures |Added(items, p, quantity)| == |items|
    ensures Added(items, p, quantity)[i].quantity == items[i].quantity + quantity
    ensures Snapshot(Added(items, p, quantity)[i]) == Snapshot(items[i])
    ensures forall j :: 0 <= j < |items| && j != i ==> Added(items, p, quantity)[j] == items[j]
  {
    FindIndexFirst(items, p.id, i);
  }

  /** Adding a product not in the cart appends exactly one line `{...p, quantity}`
      at the end and keeps the earlier lines in order. */
  lemma AddAppends(items: seq<CartItem>, p: Product, quantity: int)
    requires !HasId(items, p.id)
    ensures Added(items, p, quantity) == items + [LineOf(p, quantity)]
  {
    FindIndexFound(items, p.id);
  }

  lemma AddPreservesUniqueIds(items: seq<CartItem>, p: Product, quantity: int)
    requires UniqueIds(items)
    ensures UniqueIds(Added(items, p, quantity))
  {
  }

  /** Positivity survives addItem only for a positive quantity: the source does not guard it. */
  lemma AddPreservesPositive(items: seq<CartItem>, p: Product, quantity: int)
    requires AllPositive(items) && quantity >= 1
    ensures AllPositive(Added(items, p, quantity))
  {
  }

  /** The unguarded path: a quantity of 0 or less for a new product puts a line
      with a non-positive quantity into the cart, and a large enough negative
      quantity drives an existing line to 0 or below without removing it. */
  lemma AddNonPositiveBreaksPositivity(items: seq<CartItem>, p: Product, quantity: int)
    requires AllPositive(items)
    requires (!HasId(items, p.id) && quantity <= 0)
          || (exists j :: 0 <= j < |items| && items[j].id == p.id && items[j].quantity + quantity <= 0
                         && FindIndex(items, p.id) == j)
    ensures !AllPositive(Added(items, p, quantity))
  {
    FindIndexFound(items, p.id);
    var r := Added(items, p, quantity);
    if !HasId(items, p.id) {
      assert r[|items|].quantity <= 0;
    } else {
      var i := FindIndex(items, p.id);
      assert r[i].quantity <= 0;
    }
  }

  /** Merge law: adding the same product twice is adding the sum once, and the
      second call's name, price, image and artist are ignored. */
  lemma AddTwiceIsAddSum(items: seq<CartItem>, p: Product, p': Product, a: int, b: int)
    requires p'.id == p.id
    ensures Added(Added(items, p, a), p', b) == Added(items, p, a + b)
  {
    var once := Added(items, p, a);
    var i := FindIndex(items, p.id);
    if i >= 0 {
      assert once[i].id == p.id;
      assert forall j :: 0 <= j < i ==> once[j] == items[j];
      assert FindIndex(once, p.id) == i by {
        FindIndexFirst(once, p.id, i);
      }
    } else {
      assert once[|items|].id == p.id;
      assert forall j :: 0 <= j < |items| ==> once[j] == items[j];
      assert FindIndex(once, p.id) == |items| by {
        FindIndexFirst(once, p.id, |items|);
      }
    }
  }

  /** addItem raises the item count by exactly `quantity`. */
  lemma {:induction false} AddItemCount(items: seq<CartItem>, p: Product, quantity: int)
    ensures ItemCount(Added(items, p, quantity)) == ItemCount(items) + quantity
  {
    var i := FindIndex(items, p.id);
    if i >= 0 {
      var x := items[i].(quantity := items[i].quantity + quantity);
      assert Added(items, p, quantity) == items[i := x];
      TotalReplace(items, i, x, Quantity);
    } else {
      var line := LineOf(p, quantity);
      assert Added(items, p, quantity) == items + [line];
      TotalAppend(items, [line], Quantity);
      assert [line][..0] == [];
    }
  }

  /** The unit price a line for `p` carries after addItem: the price snapshotted
      when the product first entered the cart, not the one passed now. */
  function CartPrice(items: seq<CartItem>, p: Product): int
  {
    var i := FindIndex(items, p.id);
    if i >= 0 then items[i].price else p.price
  }

  /** addItem raises the subtotal by `quantity` times the cart's own unit price. */
  lemma {:induction false} AddSubtotal(items: seq<CartItem>, p: Product, quantity: int)
    ensures Subtotal(Added(items, p, quantity)) == Subtotal(items) + CartPrice(items, p) * quantity
  {
    var i := FindIndex(items, p.id);
    if i >= 0 {
      var x := items[i].(quantity := items[i].quantity + quantity);
      assert Added(items, p, quantity) == items[i := x];
      TotalReplace(items, i, x, LineTotal);
      LineTotalGrows(items[i], quantity);
    } else {
      var line := LineOf(p, quantity);
      assert Added(items, p, quantity) == items + [line];
      TotalAppend(items, [line], LineTotal);
      assert [line][..0] == [];
    }
  }

  /** Raising a line's quantity by `q` raises its total by `q` unit prices. */
  lemma LineTotalGrows(line: CartItem, q: int)
    ensures LineTotal(line.(quantity := line.quantity + q)) == LineTotal(line) + line.price * q
  {
    assert line.price * (line.quantity + q) == line.price * line.quantity + line.price * q;
  }

  // --------------------------------------------------------- updateQuantity

  /** updateQuantity on an id that is not in the cart changes nothing. */
  lemma UpdateAbsentIsNoop(items: seq<CartItem>, id: string, quantity: int)
    requires !HasId(items, id)
    ensures Updated(items, id, quantity) == items
  {
    FindIndexFound(items, id);
  }

  /** A positive quantity is set, not added: the first line for `id` ends with
      exactly that quantity and its metadata, and every other line is unchanged. */
  lemma UpdateSets(items: seq<CartItem>, id: string, quantity: int, i: int)
    requires 0 <= i < |items| && items[i].id == id && quantity > 0
    requires forall j :: 0 <= j < i ==> items[j].id != id
    ensures |Updated(items, id, quantity)| == |items|
    ensures Updated(items, id, quantity)[i] == items[i].(quantity := quantity)
    ensures forall j :: 0 <= j < |items| && j != i ==> Updated(items, id, quantity)[j] == items[j]
  {
    FindIndexFirst(items, id, i);
  }

  /** Setting a positive quantity and then any other is the same as the second
      call alone: a second set overrides the first, and a splice discards it. */
  lemma UpdateTwiceIsLast(items: seq<CartItem>, id: string, a: int, b: int)
    requires a > 0
    ensures Updated(Updated(items, id, a), id, b) == Updated(items, id, b)
  {
    var i := FindIndex(items, id);
    if i >= 0 {
      var once := Updated(items, id, a);
      assert forall j :: 0 <= j < i ==> once[j] == items[j];
      FindIndexFirst(once, id, i);
    } else {
      UpdateAbsentIsNoop(items, id, a);
    }
  }

  /** Delete-by-zero: with unique ids, a quantity of 0 or less is removeItem. */
  lemma DeleteByZero(items: seq<CartItem>, id: string, quantity: int)
    requires UniqueIds(items) && quantity <= 0
    ensures Updated(items, id, quantity) == Removed(items, id)
  {
    var i := FindIndex(items, id);
    if i < 0 {
      RemovedAbsent(items, id);
    } else {
      RemovedAt(items, id, i);
    }
  }

  /** Without unique ids the two removal paths differ: a splice drops only the first
      line with the id, filter drops all of them. A cart rehydrated from storage
      is not checked, so such a list can reach the store. */
  lemma DeleteByZeroNeedsUniqueIds(line: CartItem)
    ensures Updated([line, line], line.id, 0) == [line]
    ensures Removed([line, line], line.id) == []
  {
    assert [line, line][1..] == [line];
    assert [line][1..] == [];
    assert Removed([line], line.id) == [];
  }

  lemma UpdatePreservesUniqueIds(items: seq<CartItem>, id: string, quantity: int)
    requires UniqueIds(items)
    ensures UniqueIds(Updated(items, id, quantity))
  {
    var i := FindIndex(items, id);
    if i >= 0 && quantity <= 0 {
      var r := items[..i] + items[i + 1..];
      forall a, b | 0 <= a < b < |r| ensures r[a].id != r[b].id {
        var a' := if a < i then a else a + 1;
        var b' := if b < i then b else b + 1;
        assert r[a] == items[a'] && r[b] == items[b'];
      }
    }
  }

  lemma UpdatePreservesPositive(items: seq<CartItem>, id: string, quantity: int)
    requires AllPositive(items)
    ensures AllPositive(Updated(items, id, quantity))
  {
    var i := FindIndex(items, id);
    if i >= 0 && quantity <= 0 {
      var r := items[..i] + items[i + 1..];
      forall a | 0 <= a < |r| ensures r[a].quantity >= 1 {
        assert r[a] == items[if a < i then a else a + 1];
      }
    }
  }

  /** The item count after updateQuantity: the line's old quantity is replaced by
      the new one, or dropped when the new one is 0 or less. */
  lemma UpdateItemCount(items: seq<CartItem>, id: string, quantity: int)
    requires HasId(items, id)
    ensures ItemCount(Updated(items, id, quantity))
         == ItemCount(items) - items[FindIndex(items, id)].quantity + (if quantity > 0 then quantity else 0)
  {
    FindIndexFound(items, id);
    var i := FindIndex(items, id);
    if quantity <= 0 {
      TotalDelete(items, i, Quantity);
    } else {
      TotalReplace(items, i, items[i].(quantity := quantity), Quantity);
    }
  }

  // ------------------------------------------------------------- removeItem

  /** The filter keeps exactly the line items whose id differs. */
  lemma {:induction false} RemovedMembers(items: seq<CartItem>, id: string)
    ensures forall x :: x in Removed(items, id) <==> x in items && x.id != id
  {
    if items != [] {
      RemovedMembers(items[1..], id);
      assert items == [items[0]] + items[1..];
    }
  }

  /** The filter works piecewise over a concatenation, so the lines it keeps
      stay in their original relative order. */
  lemma {:induction false} RemovedAppend(a: seq<CartItem>, b: seq<CartItem>, id: string)
    ensures Removed(a + b, id) == Removed(a, id) + Removed(b, id)
  {
    if a == [] {
      assert a + b == b;
    } else {
      assert (a + b)[1..] == a[1..] + b;
      RemovedAppend(a[1..], b, id);
    }
  }

  /** removeItem on an absent id leaves the list as it was. */
  lemma {:induction false} RemovedAbsent(items: seq<CartItem>, id: string)
    requires !HasId(items, id)
    ensures Removed(items, id) == items
  {
    if items != [] {
      assert !HasId(items[1..], id) by {
        forall j | 0 <= j < |items[1..]| ensures items[1..][j].id != id {
          assert items[1..][j] == items[j + 1];
        }
      }
      RemovedAbsent(items[1..], id);
      assert items == [items[0]] + items[1..];
    }
  }

  /** With unique ids, removeItem splices out exactly the one matching line. */
  lemma RemovedAt(items: seq<CartItem>, id: string, i: int)
    requires UniqueIds(items)
    requires 0 <= i < |items| && items[i].id == id
    ensures Removed(items, id) == items[..i] + items[i + 1..]
  {
    var before, after := items[..i], items[i + 1..];
    var line := [items[i]];
    assert items == before + (line + after);
    NoIdOutside(items, id, i);
    calc {
      Removed(items, id);
      Removed(before + (line + after), id);
      { RemovedAppend(before, line + after, id); }
      Removed(before, id) + Removed(line + after, id);
      { RemovedAppend(line, after, id); }
      Removed(before, id) + (Removed(line, id) + Removed(after, id));
      { RemovedAbsent(before, id); RemovedAbsent(after, id); RemovedLine(items[i], id); }
      before + ([] + after);
    }
    assert before + ([] + after) == before + after;
  }

  lemma RemovedLine(line: CartItem, id: string)
    requires line.id == id
    ensures Removed([line], id) == []
  {
    assert [line][1..] == [];
  }

  /** With unique ids, the id at position i occurs nowhere before or after it. */
  lemma NoIdOutside(items: seq<CartItem>, id: string, i: int)
    requires UniqueIds(items)
    requires 0 <= i < |items| && items[i].id == id
    ensures !HasId(items[..i], id) && !HasId(items[i + 1..], id)
  {
    var before, after := items[..i], items[i + 1..];
    forall j | 0 <= j < |before| ensures before[j].id != id {
      assert before[j] == items[j];
    }
    forall j | 0 <= j < |after| ensures after[j].id != id {
      assert after[j] == items[i + 1 + j];
    }
  }

  /** removeItem is idempotent. */
  lemma RemovedIdempotent(items: seq<CartItem>, id: string)
    ensures Removed(Removed(items, id), id) == Removed(items, id)
  {
    RemovedMembers(items, id);
    var r := Removed(items, id);
    assert !HasId(r, id) by {
      forall j | 0 <= j < |r| ensures r[j].id != id {
        assert r[j] in r;
      }
    }
    RemovedAbsent(r, id);
  }

  lemma {:induction false} RemovedPreservesUniqueIds(items: seq<CartItem>, id: string)
    requires UniqueIds(items)
    ensures UniqueIds(Removed(items, id))
  {
    if items != [] {
      var rest := items[1..];
      assert UniqueIds(rest) by {
        forall a, b | 0 <= a < b < |rest| ensures rest[a].id != rest[b].id {
          assert rest[a] == items[a + 1] && rest[b] == items[b + 1];
        }
      }
      RemovedPreservesUniqueIds(rest, id);
      RemovedMembers(rest, id);
      var tail := Removed(rest, id);
      if items[0].id != id {
        forall x | x in tail ensures x.id != items[0].id {
          var k :| 0 <= k < |rest| && rest[k] == x;
          assert items[k + 1] == x;
        }
      }
    }
  }

  lemma {:induction false} RemovedPreservesPositive(items: seq<CartItem>, id: string)
    requires AllPositive(items)
    ensures AllPositive(Removed(items, id))
  {
    RemovedMembers(items, id);
    var r := Removed(items, id);
    forall j | 0 <= j < |r| ensures r[j].quantity >= 1 {
      assert r[j] in items;
    }
  }

  /** With unique ids, removeItem lowers the item count by the removed line's quantity. */
  lemma RemoveItemCount(items: seq<CartItem>, id: string)
    requires UniqueIds(items)
    ensures ItemCount(Removed(items, id))
         == ItemCount(items) - (if HasId(items, id) then items[FindIndex(items, id)].quantity else 0)
  {
    FindIndexFound(items, id);
    var i := FindIndex(items, id);
    if i >= 0 {
      RemovedAt(items, id, i);
      TotalDelete(items, i, Quantity);
    } else {
      RemovedAbsent(items, id);
    }
  }

  // ------------------------------------------------------------------ clear

  /** Every mutator, clear included (it yields []), keeps a well-formed cart
      well-formed, provided addItem is given a positive quantity. */
  lemma MutatorsPreserveWellFormed(items: seq<CartItem>, p: Product, id: string, a: int, q: int)
    requires WellFormed(items) && a >= 1
    ensures WellFormed(Added(items, p, a))
    ensures WellFormed(Updated(items, id, q))
    ensures WellFormed(Removed(items, id))
    ensures WellFormed([])
  {
    AddPreservesUniqueIds(items, p, a);
    AddPreservesPositive(items, p, a);
    UpdatePreservesUniqueIds(items, id, q);
    UpdatePreservesPositive(items, id, q);
    RemovedPreservesUniqueIds(items, id);
    RemovedPreservesPositive(items, id);
  }
}
