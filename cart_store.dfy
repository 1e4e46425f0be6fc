/** The CartStore object: the list of line items it owns, the set of
    subscribed listeners, and the mutators that change the list in place,
    write it to storage and notify every listener. */
module CartStoreModel {
  import opened CartItems
  import opened CartTotals
  import opened CartOps
  import opened CartStorage

  /** A subscribed callback. The source's listener takes no argument and
      re-reads the store when called; the model records the line items the
      store holds at the moment of each call. */
  class Listener {
    var observed: seq<seq<CartItem>>

    constructor ()
      ensures observed == []
    {
      observed := [];
    }

    method Invoke(items: seq<CartItem>)
      modifies this
      ensures observed == old(observed) + [items]
    {
      observed := observed + [items];
    }
  }

  /** The disposer `() => this.listeners.delete(listener)` that subscribe
      returns: it belongs to the store that created it. */
  datatype Subscription = Subscription(store: CartStore, listener: Listener)

  /** The list the store starts with for a given result of reading its key:
      a missing key leaves the initial empty list, a failed read or a value
      that does not parse falls back to empty, and a parsed value is taken
      as it is, without checking it. */
  function Rehydrated(lookup: Lookup): (items: seq<CartItem>)
    ensures lookup.Present? && lookup.value.Serialized? ==> items == lookup.value.items
    ensures items != [] ==> lookup.Present? && lookup.value.Serialized?
  {
    match lookup
    case Present(Serialized(saved)) => saved
    case _ => []
  }

  class CartStore {
    var items: seq<CartItem>
    var listeners: set<Listener>
    const storage: Storage

    /** The storage slot holds exactly the in-memory line items. */
    ghost predicate Persisted()
      reads this, storage
    {
      StorageKey in storage.entries && storage.entries[StorageKey] == Serialized(items)
    }

    /** What every mutation that takes effect does after changing the list:
        the slot is overwritten with the list unless the write throws, and
        every listener is called once and sees the new list. */
    twostate predicate Published(subscribers: set<Listener>)
      reads this, storage, subscribers
    {
      && storage.entries == (if storage.writable then old(storage.entries)[StorageKey := Serialized(items)]
                             else old(storage.entries))
      && forall l :: l in subscribers ==> l.observed == old(l.observed) + [items]
    }

    /** A mutation with no effect: storage untouched and no listener called. */
    twostate predicate Silent(subscribers: set<Listener>)
      reads this, storage, subscribers
    {
      && storage.entries == old(storage.entries)
      && forall l :: l in subscribers ==> l.observed == old(l.observed)
    }

    /** Creation loads the list from storage once (loadFromStorage). */
    constructor (storage: Storage)
      ensures this.storage == storage && listeners == {}
      ensures items == Rehydrated(storage.Get(StorageKey))
    {
      this.storage := storage;
      items := [];
      listeners := {};
      new;
      var stored := storage.GetItem(StorageKey);
      match stored {
        case Threw =>
          items := [];
        case Missing =>
        case Present(Unparsable) =>
          items := [];
        case Present(Serialized(saved)) =>
          items := saved;
      }
    }

    /** saveToStorage: a write failure is swallowed. */
    method SaveToStorage()
      modifies storage`entries
      ensures storage.entries == if storage.writable then old(storage.entries)[StorageKey := Serialized(items)]
                                 else old(storage.entries)
      ensures storage.writable ==> Persisted()
    {
      var written := storage.SetItem(StorageKey, Serialized(items));
    }

    /** notify: calls each subscribed listener exactly once. */
    method Notify()
      modifies listeners
      ensures forall l :: l in listeners ==> l.observed == old(l.observed) + [items]
    {
      var pending := listeners;
      while pending != {}
        invariant pending <= listeners
        invariant forall l :: l in listeners && l !in pending ==> l.observed == old(l.observed) + [items]
        invariant forall l :: l in pending ==> l.observed == old(l.observed)
        decreases pending
      {
        var l :| l in pending;
        l.Invoke(items);
        pending := pending - {l};
      }
    }

    /** subscribe has set semantics: subscribing a listener twice keeps one entry. */
    method Subscribe(listener: Listener) returns (s: Subscription)
      modifies this`listeners
      ensures listeners == old(listeners) + {listener}
      ensures s == Subscription(this, listener)
    {
      listeners := listeners + {listener};
      s := Subscription(this, listener);
    }

    /** Calling a disposer removes that listener and no other; it reports
        whether the listener was still subscribed, and a second call is a no-op. */
    method Dispose(s: Subscription) returns (removed: bool)
      requires s.store == this
      modifies this`listeners
      ensures listeners == old(listeners) - {s.listener}
      ensures removed <==> s.listener in old(listeners)
    {
      removed := s.listener in listeners;
      listeners := listeners - {s.listener};
    }

    /** getItems: a copy of the list, in insertion order. */
    method GetItems() returns (snapshot: seq<CartItem>)
      ensures snapshot == items
    {
      snapshot := items;
    }

    /** getItemCount */
    method GetItemCount() returns (count: int)
      ensures count == ItemCount(items)
      ensures AllPositive(items) ==> count >= |items| && (count == 0 <==> items == [])
    {
      count := ItemCount(items);
      if AllPositive(items) {
        ItemCountBounds(items);
      }
    }

    /** getSubtotal */
    method GetSubtotal() returns (subtotal: int)
      ensures subtotal == Subtotal(items)
      ensures items == [] ==> subtotal == 0
    {
      subtotal := Subtotal(items);
    }

    /** addItem: merge into the line with the same id, or append a new one. The
        quantity is not checked; with a positive one the invariants survive. */
    method AddItem(item: Product, quantity: int := 1)
      modifies this`items, storage`entries, listeners
      ensures items == Added(old(items), item, quantity)
      ensures ItemCount(items) == old(ItemCount(items)) + quantity
      ensures Subtotal(items) == old(Subtotal(items)) + CartPrice(old(items), item) * quantity
      ensures old(WellFormed(items)) && quantity >= 1 ==> WellFormed(items)
      ensures Published(old(listeners))
    {
      ghost var before := items;
      var existingIndex := FindIndex(items, item.id);
      if existingIndex >= 0 {
        items := items[existingIndex := items[existingIndex].(quantity := items[existingIndex].quantity + quantity)];
      } else {
        items := items + [LineOf(item, quantity)];
      }
      AddItemCount(before, item, quantity);
      AddSubtotal(before, item, quantity);
      if WellFormed(before) && quantity >= 1 {
        MutatorsPreserveWellFormed(before, item, item.id, quantity, quantity);
      }
      SaveToStorage();
      Notify();
    }

    /** updateQuantity: an unknown id is a complete no-op; otherwise the line is
        spliced out for a quantity of 0 or less, or its quantity set. */
    method UpdateQuantity(id: string, quantity: int)
      modifies this`items, storage`entries, listeners
      ensures items == Updated(old(items), id, quantity)
      ensures old(HasId(items, id)) ==> Published(old(listeners))
      ensures !old(HasId(items, id)) ==> items == old(items) && Silent(old(listeners))
      ensures old(WellFormed(items)) ==> WellFormed(items)
    {
      ghost var before := items;
      FindIndexFound(items, id);
      var index := FindIndex(items, id);
      if index >= 0 {
        if quantity <= 0 {
          items := items[..index] + items[index + 1..];
        } else {
          items := items[index := items[index].(quantity := quantity)];
        }
        SaveToStorage();
        Notify();
      }
      if WellFormed(before) {
        UpdatePreservesUniqueIds(before, id, quantity);
        UpdatePreservesPositive(before, id, quantity);
      }
    }

    /** removeItem: keep the lines with another id; saves and notifies even
        when nothing was removed. */
    method RemoveItem(id: string)
      modifies this`items, storage`entries, listeners
      ensures items == Removed(old(items), id)
      ensures forall x :: x in items <==> x in old(items) && x.id != id
      ensures !old(HasId(items, id)) ==> items == old(items)
      ensures old(WellFormed(items)) ==> WellFormed(items)
      ensures Published(old(listeners))
    {
      ghost var before := items;
      items := Removed(items, id);
      RemovedMembers(before, id);
      if !HasId(before, id) {
        RemovedAbsent(before, id);
      }
      if WellFormed(before) {
        RemovedPreservesUniqueIds(before, id);
        RemovedPreservesPositive(before, id);
      }
      SaveToStorage();
      Notify();
    }

    /** clear: empties the cart unconditionally. */
    method Clear()
      modifies this`items, storage`entries, listeners
      ensures items == []
      ensures ItemCount(items) == 0 && Subtotal(items) == 0
      ensures Published(old(listeners))
    {
      items := [];
      SaveToStorage();
      Notify();
    }
  }

  /** A restart over the same storage: a new store picks up exactly the list
      the last successful write stored. */
  method Restart(store: CartStore) returns (next: CartStore)
    requires store.storage.readable && store.Persisted()
    ensures fresh(next) && next.storage == store.storage
    ensures next.items == store.items && next.listeners == {}
  {
    next := new CartStore(store.storage);
  }

  /** Two subscribers, one of them disposed before an addItem: only the other
      is called, exactly once, and it sees the cart after the addition. The
      addItem call omits the quantity, as a quick add does, and gets 1. */
  method DisposedListenerIsNotCalled(store: CartStore, a: Listener, b: Listener, p: Product)
    requires a != b
    modifies store, store.storage, store.listeners, a, b
    ensures a.observed == old(a.observed)
    ensures b.observed == old(b.observed) + [store.items]
    ensures store.items == Added(old(store.items), p, 1)
  {
    var forA := store.Subscribe(a);
    var forB := store.Subscribe(b);
    var removed := store.Dispose(forA);
    store.AddItem(p);
  }
}
