/**
 * The shape of a value the foreign CBOR decoder hands back (its `DataItem`
 * tree). The decoder itself is not part of this model; only the variants the
 * passkey code casts to are told apart.
 */
module Cbor {

  import opened Wrappers
  import opened Bytes

  /** The map keys the code looks up: COSE labels and attestation field names. */
  datatype Label = IntLabel(n: int) | TextLabel(text: string)

  datatype Item =
    | ByteString(bytes: Bytes)
    | UnicodeString(text: string)
    | Integer(value: int)
    | ArrayItem(items: seq<Item>)
    | MapItem(entries: map<Label, Item>)
    | SimpleValue

  /**
   * `(item as Map).get(key) as ByteString`: the cast to a map, the lookup
   * (null when absent) and the cast to a byte string, all three of which
   * fail in the source by throwing.
   */
  function ByteStringAt(item: Item, key: Label): (r: Option<Bytes>)
    ensures r.Some? <==> item.MapItem? && key in item.entries && item.entries[key].ByteString?
    ensures r.Some? ==> r.value == item.entries[key].bytes
  {
    match item
    case MapItem(entries) =>
      if key in entries then
        match entries[key]
        case ByteString(bytes) => Some(bytes)
        case _ => None
      else None
    case _ => None
  }
}
