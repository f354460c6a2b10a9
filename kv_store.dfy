/**
 * The device's key-value store (AsyncStorage), shared by every screen.
 * Values are held already parsed, tagged with the shape they were written
 * in. The JSON text alone does not always carry that shape: an empty cart,
 * an empty order list and an empty buyer list are all the text `[]`. A
 * value read back under a key is taken to have the shape that key's
 * writer gives it, and any other shape counts as a failed parse.
 */
module KeyValue {
  import opened Entities

  datatype Doc =
    | Raw(text: string)                   // a plain string, such as 'true' under @rememberMe
    | CartLines(lines: seq<Line>)         // JSON array of cart lines
    | OrderList(orders: seq<seq<Line>>)   // JSON array of orders, each an array of lines
    | BuyerList(buyers: seq<Buyer>)       // JSON array of buyers
    | ProfileRecord(profile: Profile)     // JSON object of the profile form

  type Entries = map<string, Doc>

  /** `getItem(key)`: the stored value, or None for null. */
  function Get(m: Entries, key: string): (r: Option<Doc>)
    ensures r.Some? <==> key in m
    ensures r.Some? ==> r.value == m[key]
  {
    if key in m then Some(m[key]) else None
  }

  /** JavaScript truthiness of what `getItem` returned: null and '' are falsy. */
  predicate Truthy(r: Option<Doc>)
    // A missing key is falsy; every structured value is truthy.
    ensures Truthy(r) ==> r.Some?
    ensures r.Some? && !r.value.Raw? ==> Truthy(r)
    ensures r.Some? && r.value.Raw? ==> (Truthy(r) <==> r.value.text != "")
  {
    r.Some? && r.value != Raw("")
  }

  /** The store itself. Every method here succeeds; callers model a failed
      write by not calling it. */
  class Storage {
    var entries: Entries

    constructor (initial: Entries)
      ensures entries == initial
    {
      entries := initial;
    }

    method SetItem(key: string, value: Doc)
      modifies this
      ensures entries == old(entries)[key := value]
    {
      entries := entries[key := value];
    }

    method RemoveItem(key: string)
      modifies this
      ensures entries == old(entries) - {key}
    {
      entries := entries - {key};
    }

    method MultiRemove(keys: set<string>)
      modifies this
      ensures entries == old(entries) - keys
    {
      entries := entries - keys;
    }
  }
}
