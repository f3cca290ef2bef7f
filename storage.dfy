/** `window.localStorage`: one key-value store shared by every screen. */
module Storage {
  import opened Wrappers
  import opened JsonValues

  /** What a key holds: text written directly, or the text that
      `JSON.stringify(value)` produced (kept as the value, since the only
      reader of such a key is `JSON.parse`). */
  datatype Item = Raw(text: string) | Encoded(value: Json)

  class LocalStorage {
    var items: map<string, Item>

    constructor ()
      ensures items == map[]
    {
      items := map[];
    }

    method GetItem(k: string) returns (r: Option<Item>)
      ensures r == if k in items then Some(items[k]) else None
    {
      r := if k in items then Some(items[k]) else None;
    }

    method SetItem(k: string, it: Item)
      modifies this
      ensures items == old(items)[k := it]
    {
      items := items[k := it];
    }

    method RemoveItem(k: string)
      modifies this
      ensures items == old(items) - {k}
    {
      items := items - {k};
    }

    method Clear()
      modifies this
      ensures items == map[]
    {
      items := map[];
    }
  }

  /** Removing keys one at a time removes all of them. */
  lemma RemovedInTurn<K, V>(m: map<K, V>, a: K, b: K, c: K, d: K, e: K)
    ensures m - {a} - {b} == m - {a, b}
    ensures m - {a} - {b} - {c} - {d} == m - {a, b, c, d}
    ensures m - {a} - {b} - {c} - {d} - {e} == m - {a, b, c, d, e}
  {
  }

  /** `JSON.parse(localStorage.getItem(k) || fallbackText)`: a missing or empty
      item parses the fallback; an item written with `JSON.stringify` parses
      back to its value; other text is treated as a parse error. */
  function ParseStored(it: Option<Item>, fallback: Json): (r: Result<Json, string>)
    ensures it.None? ==> r == Ok(fallback)
    ensures (it.Some? && it.value.Encoded?) ==> r == Ok(it.value.value)
  {
    match it
    case None => Ok(fallback)
    case Some(Raw(t)) => if t == [] then Ok(fallback) else Err("SyntaxError: Unexpected token")
    case Some(Encoded(j)) => Ok(j)
  }

  /** What `getItem(k)` returns for a given content of the store. */
  function ItemAt(items: map<string, Item>, k: string): Option<Item> {
    if k in items then Some(items[k]) else None
  }

  /** `localStorage.getItem(k) === text`. */
  predicate ItemIs(it: Option<Item>, text: string) {
    it == Some(Raw(text))
  }
}
