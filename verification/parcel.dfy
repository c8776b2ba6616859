/** `Parcel` (canada_post/util/parcel.py) and the customs items a caller
    attaches to it. `Parcel.__init__` defaults the four measures to 0 and
    stores every other keyword argument as an attribute; `unpackaged` and
    `items` are such attributes, so they may be missing (None here). */
module Parcels {
  import opened Common

  /** One customs line: `amount`, `description`, `weight` and `price`. */
  datatype Item = Item(amount: int, description: Option<string>, weight: int, price: int)

  datatype Parcel = Parcel(
    weight: int,
    length: int,
    width: int,
    height: int,
    unpackaged: Option<bool>,
    items: Option<seq<Item>>)
}
