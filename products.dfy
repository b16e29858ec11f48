/**
 * The product model: a generic product (`Producto`) and its two
 * specialisations, electronic (`ProductoElectronico`, adds a brand) and food
 * (`ProductoAlimenticio`, adds an expiry date), as one closed tagged union;
 * their flat serialised form (`to_dict` / `from_dict`); and the two guarded
 * setters of a product object.
 */
module Products {
  import opened Wrappers

  /** The variant of a product together with the one field it adds. */
  datatype Variant =
    | Generic
    | Electronic(brand: string)
    | Food(expiry: string)

  /** A product value. Construction does not validate: price and quantity may be negative. */
  datatype Product = Product(name: string, price: real, quantity: int, variant: Variant)

  /** Which class's `from_dict` is applied to a record. */
  datatype Tag = GenericTag | ElectronicTag | FoodTag

  datatype Error =
    | InvalidValue               // a setter was given a negative value (ValueError)
    | MalformedRecord(key: string) // a record lacks a field `from_dict` reads (KeyError)

  /** A JSON scalar as `json.load` delivers it. */
  datatype Json = JString(s: string) | JInt(i: int) | JFloat(f: real)

  /** A flat record (a JSON object): field name to value. */
  type Record = map<string, Json>

  function TagOf(v: Variant): Tag
  {
    match v
    case Generic => GenericTag
    case Electronic(_) => ElectronicTag
    case Food(_) => FoodTag
  }

  /** A product that valid use keeps: neither price nor quantity negative. */
  predicate NonNegative(p: Product)
  {
    p.price >= 0.0 && p.quantity >= 0
  }

  /** The fields the class's `from_dict` reads, in the order it reads them. */
  function FieldKeys(tag: Tag): (keys: seq<string>)
    ensures |keys| >= 3 && keys[..3] == ["nombre", "precio", "cantidad"]
  {
    ["nombre", "precio", "cantidad"] +
    match tag
    case GenericTag => []
    case ElectronicTag => ["marca"]
    case FoodTag => ["fecha_caducidad"]
  }

  /** Whether a value has the shape a product field needs. */
  predicate Fits(key: string, v: Json)
  {
    if key == "precio" then v.JInt? || v.JFloat?
    else if key == "cantidad" then v.JInt?
    else v.JString?
  }

  /** Whether `from_dict` can read field `key` of `rec`. */
  predicate Readable(rec: Record, key: string)
  {
    key in rec && Fits(key, rec[key])
  }

  function PriceOf(v: Json): real
  {
    match v
    case JInt(i) => i as real
    case JFloat(f) => f
    case JString(_) => 0.0
  }

  /** Whether every field of `p` holds the value the record gives for it
      (an integer price read as the same real number). */
  predicate Carries(p: Product, rec: Record)
  {
    && "nombre" in rec && rec["nombre"] == JString(p.name)
    && "precio" in rec && Fits("precio", rec["precio"]) && PriceOf(rec["precio"]) == p.price
    && "cantidad" in rec && rec["cantidad"] == JInt(p.quantity)
    && match p.variant
       case Generic => true
       case Electronic(brand) => "marca" in rec && rec["marca"] == JString(brand)
       case Food(expiry) => "fecha_caducidad" in rec && rec["fecha_caducidad"] == JString(expiry)
  }

  /** The serialised form of a product (`to_dict`): the shared fields plus the
      variant's own field; no `tipo` discriminator is ever written. */
  function ToDict(p: Product): (r: Record)
    ensures "tipo" !in r
    ensures forall k :: k in r <==> k in FieldKeys(TagOf(p.variant))
    ensures forall k :: k in r ==> Readable(r, k)
    ensures Carries(p, r)
  {
    var shared := map["nombre" := JString(p.name), "precio" := JFloat(p.price), "cantidad" := JInt(p.quantity)];
    match p.variant
    case Generic => shared
    case Electronic(brand) => shared["marca" := JString(brand)]
    case Food(expiry) => shared["fecha_caducidad" := JString(expiry)]
  }

  /** The first of `keys` that `rec` cannot supply. */
  function FirstUnreadable(rec: Record, keys: seq<string>): (r: Option<string>)
    ensures r.None? <==> forall k :: k in keys ==> Readable(rec, k)
    ensures r.Some? ==> exists i :: 0 <= i < |keys| && keys[i] == r.value && !Readable(rec, r.value) &&
                                    forall j :: 0 <= j < i ==> Readable(rec, keys[j])
    decreases |keys|
  {
    if |keys| == 0 then None
    else if !Readable(rec, keys[0]) then Some(keys[0])
    else
      var rest := FirstUnreadable(rec, keys[1..]);
      assert forall k :: k in keys ==> k == keys[0] || k in keys[1..];
      if rest.Some? then
        assert exists i :: 1 <= i < |keys| && keys[i] == rest.value && !Readable(rec, rest.value) &&
                           forall j :: 1 <= j < i ==> Readable(rec, keys[j]);
        rest
      else None
  }

  /** The class's `from_dict`: reads the fields in order and builds that class's
      product, or fails on the first field the record cannot supply. */
  function FromDict(tag: Tag, rec: Record): (r: Result<Product, Error>)
    ensures r.Success? <==> forall k :: k in FieldKeys(tag) ==> Readable(rec, k)
    ensures r.Success? ==> TagOf(r.value.variant) == tag && Carries(r.value, rec)
    ensures r.Failure? ==> r.error.MalformedRecord? && !Readable(rec, r.error.key) &&
                           exists i :: 0 <= i < |FieldKeys(tag)| && FieldKeys(tag)[i] == r.error.key &&
                                       forall j :: 0 <= j < i ==> Readable(rec, FieldKeys(tag)[j])
  {
    var keys := FieldKeys(tag);
    match FirstUnreadable(rec, keys)
    case Some(k) => Failure(MalformedRecord(k))
    case None =>
      assert keys[0] in keys && keys[1] in keys && keys[2] in keys;
      var name, price, quantity := rec["nombre"].s, PriceOf(rec["precio"]), rec["cantidad"].i;
      match tag
      case GenericTag => Success(Product(name, price, quantity, Generic))
      case ElectronicTag =>
        assert keys[3] == "marca" && keys[3] in keys;
        Success(Product(name, price, quantity, Electronic(rec["marca"].s)))
      case FoodTag =>
        assert keys[3] == "fecha_caducidad" && keys[3] in keys;
        Success(Product(name, price, quantity, Food(rec["fecha_caducidad"].s)))
  }

  /** The value of the record's `tipo` field (`item.get('tipo')`). */
  function Tipo(rec: Record): Option<Json>
  {
    if "tipo" in rec then Some(rec["tipo"]) else None
  }

  /** The class the loader picks for a record, from its `tipo` field. */
  function Dispatch(rec: Record): Tag
  {
    if Tipo(rec) == Some(JString("electronico")) then ElectronicTag
    else if Tipo(rec) == Some(JString("alimenticio")) then FoodTag
    else GenericTag
  }

  /** One record turned back into a product by the loader. */
  function Decode(rec: Record): (r: Result<Product, Error>)
    ensures r.Success? ==> (r.value.variant.Electronic? <==> Tipo(rec) == Some(JString("electronico")))
    ensures r.Success? ==> (r.value.variant.Food? <==> Tipo(rec) == Some(JString("alimenticio")))
    ensures r.Success? ==> Carries(r.value, rec)
    ensures r.Success? <==> forall k :: k in FieldKeys(Dispatch(rec)) ==> Readable(rec, k)
  {
    FromDict(Dispatch(rec), rec)
  }

  /** The product a base-class `from_dict` makes of a product's record: same
      name, price and quantity, variant field dropped. */
  function Demote(p: Product): Product
  {
    Product(p.name, p.price, p.quantity, Generic)
  }

  /** For every variant, the variant's own `from_dict` inverts its `to_dict`. */
  lemma RoundTrip(p: Product)
    ensures FromDict(TagOf(p.variant), ToDict(p)) == Success(p)
  {
    var rec := ToDict(p);
    assert forall k :: k in FieldKeys(TagOf(p.variant)) ==> Readable(rec, k);
  }

  /** Since no record carries `tipo`, the loader rebuilds every saved product
      as a generic one with the same name, price and quantity. */
  lemma DecodeSaved(p: Product)
    ensures Decode(ToDict(p)) == Success(Demote(p))
  {
    var rec := ToDict(p);
    assert Dispatch(rec) == GenericTag;
    assert forall k :: k in FieldKeys(GenericTag) ==> Readable(rec, k);
  }

  /** Only the base variant survives a save and a reload unchanged. */
  lemma DecodeSavedKeepsOnlyGeneric(p: Product)
    ensures Decode(ToDict(p)) == Success(p) <==> p.variant.Generic?
  {
    DecodeSaved(p);
  }

  /** A mutable product: the object the menu finds, updates and writes back. */
  class ProductObject {
    var name: string
    var price: real
    var quantity: int
    const variant: Variant

    function Value(): Product
      reads this
    {
      Product(name, price, quantity, variant)
    }

    /** Builds the object without validating price or quantity. */
    constructor (name: string, price: real, quantity: int, variant: Variant)
      ensures Value() == Product(name, price, quantity, variant)
    {
      this.name := name;
      this.price := price;
      this.quantity := quantity;
      this.variant := variant;
    }

    /** `actualizar_precio`: rejects a negative price, otherwise replaces the price only. */
    method SetPrice(newPrice: real) returns (outcome: Outcome<Error>)
      modifies this`price
      ensures outcome.Fail? <==> newPrice < 0.0
      ensures outcome.Fail? ==> outcome.error == InvalidValue && Value() == old(Value())
      ensures outcome.Pass? ==> Value() == Product(old(name), newPrice, old(quantity), variant)
      ensures old(NonNegative(Value())) ==> NonNegative(Value())
    {
      if newPrice < 0.0 {
        return Fail(InvalidValue);
      }
      price := newPrice;
      outcome := Pass;
    }

    /** `actualizar_cantidad`: rejects a negative quantity, otherwise replaces the quantity only. */
    method SetQuantity(newQuantity: int) returns (outcome: Outcome<Error>)
      modifies this`quantity
      ensures outcome.Fail? <==> newQuantity < 0
      ensures outcome.Fail? ==> outcome.error == InvalidValue && Value() == old(Value())
      ensures outcome.Pass? ==> Value() == Product(old(name), old(price), newQuantity, variant)
      ensures old(NonNegative(Value())) ==> NonNegative(Value())
    {
      if newQuantity < 0 {
        return Fail(InvalidValue);
      }
      quantity := newQuantity;
      outcome := Pass;
    }
  }
}
