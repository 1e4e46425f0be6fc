/** The browser's key-value storage as the cart store sees it: one slot per
    key, reads and writes that may throw. JSON text is not modelled: a slot
    holds either a list of line items written by the store or something that
    does not parse. */
module CartStorage {
  import opened CartItems

  /** The one key the cart is persisted under. */
  const StorageKey: string := "Hasan-fragments-cart"

  datatype Stored = Serialized(items: seq<CartItem>) | Unparsable

  /** What getItem yields: the read threw, the key is missing, or its value. */
  datatype Lookup = Threw | Missing | Present(value: Stored)

  class Storage {
    var entries: map<string, Stored>
    /** false when getItem throws (storage disabled or inaccessible) */
    var readable: bool
    /** false when setItem throws (quota exceeded, storage disabled) */
    var writable: bool

    constructor (entries: map<string, Stored>, readable: bool, writable: bool)
      ensures this.entries == entries && this.readable == readable && this.writable == writable
    {
      this.entries := entries;
      this.readable := readable;
      this.writable := writable;
    }

    /** The outcome getItem(key) would have now. */
    function Get(key: string): (r: Lookup)
      reads this
      ensures r.Threw? <==> !readable
      ensures r.Missing? <==> readable && key !in entries
      ensures r.Present? ==> key in entries && r.value == entries[key]
    {
      if !readable then Threw
      else if key in entries then Present(entries[key])
      else Missing
    }

    method GetItem(key: string) returns (r: Lookup)
      ensures r == Get(key)
    {
      r := Get(key);
    }

    /** setItem: overwrites the one slot, or throws and changes nothing. */
    method SetItem(key: string, value: Stored) returns (ok: bool)
      modifies this`entries
      ensures ok == writable
      ensures entries == if ok then old(entries)[key := value] else old(entries)
    {
      ok := writable;
      if ok {
        entries := entries[key := value];
      }
    }
  }
}
