# Inventory of products, modelled in Dafny

This project models the core of a small inventory program (`desafio_1.py`).

**Products.** There are three kinds of product:

- a generic product (`Producto`);
- an electronic product (`ProductoElectronico`), which adds a brand;
- a food product (`ProductoAlimenticio`), which adds an expiry date.

Every product has a name, a price and a quantity. Two setters reject negative values. Each kind has a `to_dict`/`from_dict` pair that converts a product to a flat record and back.

**The store.** The inventory store (`Inventario`) holds an ordered list of products. It looks a product up by scanning for the first exact name match. It rewrites its whole backing JSON file after every addition, removal or update; a load changes the list without writing the file.

## Files

- `wrappers.dfy` (module `Wrappers`): `Option`, `Result` and `Outcome`.
- `products.dfy` (module `Products`):
  - the `Product` datatype, whose `Variant` is `Generic`, `Electronic(brand)` or `Food(expiry)`;
  - records as `map<string, Json>`;
  - `ToDict`, `FromDict` (one per class, chosen by a `Tag`) and the loader's per-record `Decode`, which dispatches on `tipo`;
  - the class `ProductObject`, which carries the two guarded setters.
- `inventory.dfy` (module `InventoryStore`):
  - the specification of the scan by name (`FirstIndex`, `WithoutFirst`, `ReplaceFirst`) and of loading (`DecodeAll`);
  - lemmas about them;
  - the class `Inventory`, whose methods loop over `products` the way the source does.

The backing file is abstract:

- the ghost field `file` holds the records that the last save wrote;
- the ghost counter `saves` makes "does not save" something a contract can state;
- a load receives what reading the file produced, as a `FileRead`: `NotFound`, `Undecodable` or `Decoded(items)`.

Three behaviours of the code are modelled as written:

- `to_dict` never writes a `tipo` key, although the loader dispatches on one. A saved and reloaded list therefore comes back as generic products (`ReloadDemotes`).
- A successful load appends to the current list instead of replacing it; only a missing or undecodable file resets it to empty.
- Constructors do not validate, so a product may have a negative price or quantity; only the two setters reject negative values.

## Model

| member | source | states |
|---|---|---|
| `Products.ProductObject.constructor` | desafio_1.py:4-7 | builds a product with exactly the given fields and does no validation |
| `Products.ProductObject.SetPrice` | desafio_1.py:12-15 | a negative price fails with `InvalidValue` and leaves the product unchanged; otherwise only the price changes, to exactly the argument; non-negativity is preserved |
| `Products.ProductObject.SetQuantity` | desafio_1.py:17-20 | a negative quantity fails with `InvalidValue` and leaves the product unchanged; otherwise only the quantity changes, to exactly the argument; non-negativity is preserved |
| `Products.ToDict` | desafio_1.py:22-61 | the record's key set is exactly the fields of the product's class (`FieldKeys`: the shared fields plus brand or expiry date, in no particular order); each field holds the product's value; no `tipo` key is ever written |
| `Products.FirstUnreadable` | desafio_1.py:29-31 | the first field, in reading order, that the record cannot supply; none exactly when every field is readable |
| `Products.FromDict` | desafio_1.py:29-65 | succeeds exactly when every field the class reads is present; the result is of that class and carries the record's values; otherwise it fails naming the first missing field in reading order |
| `Products.RoundTrip` | desafio_1.py:22-65 | for every variant, that class's `from_dict` applied to `to_dict(p)` gives back `p` |
| `Products.Decode` | desafio_1.py:76-82 | a record becomes an electronic product exactly when `tipo` is `"electronico"`, a food product exactly when it is `"alimenticio"`, otherwise a generic product; this holds whenever decoding succeeds, and the product carries the record's values |
| `Products.DecodeSaved` | desafio_1.py:76-82 | the loader turns any product's saved record into a generic product with the same name, price and quantity |
| `Products.DecodeSavedKeepsOnlyGeneric` | desafio_1.py:41-82 | a product survives its own save and reload unchanged exactly when it is generic |
| `InventoryStore.FirstIndex` | desafio_1.py:111-115 | the smallest index whose product has the name; none exactly when no product has it |
| `InventoryStore.DecodeAll` | desafio_1.py:76-83 | the products of the records, in file order, up to the first record that fails to decode, together with that failure |
| `InventoryStore.DecodeAllStep` | desafio_1.py:76-83 | decoding one more record extends a cleanly decoded prefix by that record's product or its error |
| `InventoryStore.LoadFailureIsFinal` | desafio_1.py:76-83 | once a record fails, no later record changes the result: the error ends the load |
| `InventoryStore.AbsentIffNoNamesakes` | desafio_1.py:111-115 | the scan finds nothing exactly when no product has the name |
| `InventoryStore.RemovalDropsFirstNamesake` | desafio_1.py:103-109 | removal takes out exactly the first product with the name; products with other names keep their relative order; later namesakes stay; the length drops by one exactly when there was a match |
| `InventoryStore.FoundAfterRemoval` | desafio_1.py:103-115 | after a removal the name can still be found exactly when the list held two or more products with it |
| `InventoryStore.ReplacementKeepsOthers` | desafio_1.py:117-123 | replacing by a product of the same name keeps every product with another name, puts the new product at the first match, and leaves the scan's answer at that index |
| `InventoryStore.AddedNamesakeIsShadowed` | desafio_1.py:99-115 | appending never changes the index found for a name already present; the appended product is found only if its name was absent |
| `InventoryStore.ReloadDemotes` | desafio_1.py:76-95 | loading the records of a saved list yields, without error and in the same order, the list with every product demoted to generic |
| `InventoryStore.Inventory.constructor` | desafio_1.py:68-70 | a new store for the path starts with an empty list |
| `InventoryStore.Inventory.Load` | desafio_1.py:72-89 | a missing or undecodable file resets the list to empty with no error; otherwise the decoded products are appended after the existing ones, in file order; a record missing a field stops the load with its error and keeps the products appended before it |
| `InventoryStore.Inventory.Save` | desafio_1.py:91-97 | the file becomes the records of the list, in order |
| `InventoryStore.Inventory.Add` | desafio_1.py:99-101 | the list becomes the old list followed by the product, with no duplicate-name check; the file is then the records of the new list |
| `InventoryStore.Inventory.Remove` | desafio_1.py:103-109 | returns whether some product has the name; if so, removes the first such product and saves; otherwise the list and file are unchanged and nothing is saved |
| `InventoryStore.Inventory.Find` | desafio_1.py:111-115 | returns the product at the first index with the name; returns nothing exactly when no product has it; changes nothing |
| `InventoryStore.Inventory.Update` | desafio_1.py:117-123 | returns whether some product has the name; if so, puts the new product at the first match and saves, leaving the length and all other positions unchanged; otherwise the list and file are unchanged and nothing is saved |

`InventoryStore.Walkthrough` is a client with no contract. It uses only the contracts above to check three steps on a store whose file is missing:

1. the load leaves the store empty;
2. a laptop that is added is then found;
3. milk that is added and removed is no longer found.

## Left out

- The interactive menu (`main`, desafio_1.py:125-191) is console input and output only.
- Real file access and JSON text are not modelled. What a load read is passed in as a `FileRead`, and the file is the ghost field `file`.
- Printed messages are left out.
- Inventory.Save: the `IOError` branch (desafio_1.py:96-97) is not modelled, so every save completes. The code only prints a message there and leaves the list unchanged.
- Inventory.Load: exceptions other than a missing field are not modelled; the decoded file is always taken to be a list of JSON objects. Two uncaught cases are left out. An item that is not an object (a list, string, number or null) makes `item.get('tipo')` raise `AttributeError` (desafio_1.py:77). A top level that cannot be iterated (a number, a boolean or null) raises `TypeError` at desafio_1.py:76; a top-level string or object is iterated by character or by key and raises `AttributeError` at desafio_1.py:77, unless it is empty, in which case nothing is appended (as `Load(Decoded([]))` does).
- FromDict: a field present with the wrong kind of JSON value is treated like a missing field. Python would store the value as it is. The reason is that the model gives every field a fixed type: name and extra field are strings, quantity is an integer, and price is a number.
- Prices are `real`, not floating point. Only comparison with zero and equality matter, and an integer price in a record is read as the same real number.
- `__str__` (desafio_1.py:9-10, 38-39, 55-56) is presentation only and depends on Python's number formatting.
- Object identity and aliasing are not modelled. The list holds product values. `list.remove` of the found object is modelled as deleting the index where the scan stopped. No earlier product can be that object, because each has a different name, and `list.remove` deletes the first occurrence; a later position may hold the same object again (it can be added twice), and it stays.
