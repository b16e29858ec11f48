/**
 * The inventory store (`Inventario`): an ordered list of products, searched by
 * a linear scan for the first product with an exactly equal name, mirrored in
 * full to a backing file after every addition, removal or update.
 *
 * The backing file is abstract: `file` is the list of records the last save
 * wrote, and what a load reads is passed in as a `FileRead`.
 */
module InventoryStore {
  import opened Wrappers
  import opened Products

  /** What reading and decoding the backing file produced. */
  datatype FileRead =
    | NotFound               // the file does not exist
    | Undecodable            // the file is not valid JSON
    | Decoded(items: seq<Record>)

  /** The products a load appends, and the error that stopped it, if any. */
  datatype Loaded = Loaded(products: seq<Product>, failure: Option<Error>)

  // ----- Specification of the scan by name -----

  /** The position of the first product called `name`, if there is one. */
  function FirstIndex(ps: seq<Product>, name: string): (r: Option<nat>)
    ensures r.None? <==> forall j :: 0 <= j < |ps| ==> ps[j].name != name
    ensures r.Some? ==> r.value < |ps| && ps[r.value].name == name &&
                        forall j :: 0 <= j < r.value ==> ps[j].name != name
    decreases |ps|
  {
    if |ps| == 0 then None
    else if ps[0].name == name then Some(0)
    else
      match FirstIndex(ps[1..], name)
      case None => None
      case Some(i) => Some(i + 1)
  }

  /** The products called `name`, in list order. */
  function Namesakes(ps: seq<Product>, name: string): seq<Product>
    decreases |ps|
  {
    if |ps| == 0 then []
    else (if ps[0].name == name then [ps[0]] else []) + Namesakes(ps[1..], name)
  }

  /** The products not called `name`, in list order. */
  function Others(ps: seq<Product>, name: string): seq<Product>
    decreases |ps|
  {
    if |ps| == 0 then []
    else (if ps[0].name != name then [ps[0]] else []) + Others(ps[1..], name)
  }

  /** The list without its first product called `name` (unchanged if there is none). */
  function WithoutFirst(ps: seq<Product>, name: string): seq<Product>
  {
    match FirstIndex(ps, name)
    case None => ps
    case Some(i) => ps[..i] + ps[i + 1..]
  }

  /** The list with its first product called `name` replaced by `q` (unchanged if there is none). */
  function ReplaceFirst(ps: seq<Product>, name: string, q: Product): seq<Product>
  {
    match FirstIndex(ps, name)
    case None => ps
    case Some(i) => ps[i := q]
  }

  /** The file image of a list: each product's record, in list order. */
  function ToRecords(ps: seq<Product>): seq<Record>
  {
    seq(|ps|, i requires 0 <= i < |ps| => ToDict(ps[i]))
  }

  /** Every product of a list demoted to the base variant. */
  function Demoted(ps: seq<Product>): seq<Product>
  {
    seq(|ps|, i requires 0 <= i < |ps| => Demote(ps[i]))
  }

  /** What loading `items` appends: the products of the records, in file order,
      up to the first record that cannot be decoded. */
  function DecodeAll(items: seq<Record>): (r: Loaded)
    ensures |r.products| <= |items|
    ensures forall i :: 0 <= i < |r.products| ==> Decode(items[i]) == Success(r.products[i])
    ensures r.failure.None? ==> |r.products| == |items|
    ensures r.failure.Some? ==> |r.products| < |items| && Decode(items[|r.products|]) == Failure(r.failure.value)
    decreases |items|
  {
    if |items| == 0 then Loaded([], None)
    else
      var prior := DecodeAll(items[..|items| - 1]);
      if prior.failure.Some? then prior
      else
        match Decode(items[|items| - 1])
        case Failure(e) => Loaded(prior.products, Some(e))
        case Success(p) => Loaded(prior.products + [p], None)
  }

  // ----- Properties of the specification -----

  lemma FiltersDistribute(a: seq<Product>, b: seq<Product>, name: string)
    ensures Namesakes(a + b, name) == Namesakes(a, name) + Namesakes(b, name)
    ensures Others(a + b, name) == Others(a, name) + Others(b, name)
  {
    NamesakesDistribute(a, b, name);
    OthersDistribute(a, b, name);
  }

  lemma {:induction false} NamesakesDistribute(a: seq<Product>, b: seq<Product>, name: string)
    ensures Namesakes(a + b, name) == Namesakes(a, name) + Namesakes(b, name)
    decreases |a|
  {
    if |a| == 0 {
      assert a + b == b;
    } else {
      var ab := a + b;
      assert ab[0] == a[0] && ab[1..] == a[1..] + b;
      NamesakesDistribute(a[1..], b, name);
      var head := if a[0].name == name then [a[0]] else [];
      assert Namesakes(ab, name) == head + (Namesakes(a[1..], name) + Namesakes(b, name));
    }
  }

  lemma {:induction false} OthersDistribute(a: seq<Product>, b: seq<Product>, name: string)
    ensures Others(a + b, name) == Others(a, name) + Others(b, name)
    decreases |a|
  {
    if |a| == 0 {
      assert a + b == b;
    } else {
      var ab := a + b;
      assert ab[0] == a[0] && ab[1..] == a[1..] + b;
      OthersDistribute(a[1..], b, name);
      var head := if a[0].name != name then [a[0]] else [];
      assert Others(ab, name) == head + (Others(a[1..], name) + Others(b, name));
    }
  }

  lemma {:induction false} FiltersOfUnnamed(s: seq<Product>, name: string)
    requires forall j :: 0 <= j < |s| ==> s[j].name != name
    ensures Namesakes(s, name) == [] && Others(s, name) == s
    decreases |s|
  {
    if |s| > 0 {
      FiltersOfUnnamed(s[1..], name);
    }
  }

  /** A name is absent from the list exactly when the list holds no product of that name. */
  lemma {:induction false} AbsentIffNoNamesakes(ps: seq<Product>, name: string)
    ensures FirstIndex(ps, name).None? <==> Namesakes(ps, name) == []
    decreases |ps|
  {
    if |ps| > 0 {
      AbsentIffNoNamesakes(ps[1..], name);
    }
  }

  /** The list splits at the first product called `name` into an unnamed prefix,
      that product, and the rest. */
  lemma SplitAtFirst(ps: seq<Product>, name: string, i: nat)
    requires i < |ps| && ps[i].name == name && forall j :: 0 <= j < i ==> ps[j].name != name
    ensures Namesakes(ps, name) == [ps[i]] + Namesakes(ps[i + 1..], name)
    ensures Others(ps, name) == ps[..i] + Others(ps[i + 1..], name)
  {
    var pre, x, post := ps[..i], ps[i], ps[i + 1..];
    assert ps == pre + ([x] + post);
    FiltersOfUnnamed(pre, name);
    FiltersDistribute(pre, [x] + post, name);
    assert ([x] + post)[1..] == post;
  }

  /** Removal takes out exactly the first product called `name`: the products of
      other names keep their relative order, and of the namesakes only the
      first is gone. */
  lemma RemovalDropsFirstNamesake(ps: seq<Product>, name: string)
    ensures Others(WithoutFirst(ps, name), name) == Others(ps, name)
    ensures Namesakes(ps, name) ==
            (if FirstIndex(ps, name).Some? then [ps[FirstIndex(ps, name).value]] else []) +
            Namesakes(WithoutFirst(ps, name), name)
    ensures |WithoutFirst(ps, name)| == |ps| - (if FirstIndex(ps, name).Some? then 1 else 0)
  {
    var f := FirstIndex(ps, name);
    if f.Some? {
      var i := f.value;
      var pre, post := ps[..i], ps[i + 1..];
      var r := WithoutFirst(ps, name);
      assert r == pre + post;
      SplitAtFirst(ps, name, i);
      FiltersOfUnnamed(pre, name);
      FiltersDistribute(pre, post, name);
      assert Others(r, name) == pre + Others(post, name);
      assert Namesakes(r, name) == Namesakes(post, name);
    }
  }

  /** After a removal the name is still found exactly when the list held it twice or more. */
  lemma FoundAfterRemoval(ps: seq<Product>, name: string)
    ensures FirstIndex(WithoutFirst(ps, name), name).Some? <==> |Namesakes(ps, name)| >= 2
  {
    RemovalDropsFirstNamesake(ps, name);
    AbsentIffNoNamesakes(ps, name);
    AbsentIffNoNamesakes(WithoutFirst(ps, name), name);
  }

  /** Replacing the first product called `name` by one of the same name keeps
      every other product where it was and makes the scan find the newcomer. */
  lemma ReplacementKeepsOthers(ps: seq<Product>, name: string, q: Product)
    requires q.name == name
    ensures Others(ReplaceFirst(ps, name, q), name) == Others(ps, name)
    ensures FirstIndex(ReplaceFirst(ps, name, q), name) == FirstIndex(ps, name)
    ensures FirstIndex(ps, name).Some? ==> ReplaceFirst(ps, name, q)[FirstIndex(ps, name).value] == q
  {
    match FirstIndex(ps, name)
    case None =>
    case Some(i) =>
      var r := ReplaceFirst(ps, name, q);
      assert r[..i] == ps[..i] && r[i + 1..] == ps[i + 1..];
      SplitAtFirst(ps, name, i);
      SplitAtFirst(r, name, i);
  }

  /** Adding never changes what the scan finds for a name already present, so a
      second product of the same name is unreachable by name. */
  lemma AddedNamesakeIsShadowed(ps: seq<Product>, p: Product, name: string)
    ensures FirstIndex(ps + [p], name) ==
            if FirstIndex(ps, name).Some? then FirstIndex(ps, name)
            else if p.name == name then Some(|ps|)
            else None
  {
    var s := ps + [p];
    assert forall j :: 0 <= j < |ps| ==> s[j] == ps[j];
    var r := FirstIndex(s, name);
    match FirstIndex(ps, name)
    case Some(i) =>
      assert s[i].name == name;
      assert r.value <= i;
      assert r.value >= i;
    case None =>
      assert s[|ps|] == p;
      if p.name == name {
        assert r.value == |ps|;
      } else {
        assert r.None?;
      }
  }

  /** Records carry no `tipo`, so a saved list reloads as its demoted products,
      in the same order and with nothing failing. */
  lemma ReloadDemotes(ps: seq<Product>)
    ensures DecodeAll(ToRecords(ps)) == Loaded(Demoted(ps), None)
  {
    var items := ToRecords(ps);
    forall i | 0 <= i < |ps|
      ensures Decode(items[i]) == Success(Demote(ps[i]))
    {
      DecodeSaved(ps[i]);
    }
    var r := DecodeAll(items);
    assert r.failure.None?;
    assert r.products == Demoted(ps);
  }

  /** The store: the in-memory list and the backing file it is mirrored to. */
  class Inventory {
    const path: string
    var products: seq<Product>
    /** The records the backing file holds since the last save. */
    ghost var file: seq<Record>
    /** How many times the file has been written. */
    ghost var saves: nat

    /** A store for the file at `path`, empty until something is loaded or added. */
    constructor (path: string)
      ensures this.path == path && products == [] && saves == 0
    {
      this.path := path;
      products := [];
      saves := 0;
    }

    /** `cargar_productos`: a missing or undecodable file resets the list to
        empty without error; otherwise each record is decoded by its `tipo` and
        appended after the current contents, in file order, until a record lacks
        a field, whose error is passed on with the earlier records kept. */
    method Load(read: FileRead) returns (outcome: Outcome<Error>)
      modifies this`products
      ensures !read.Decoded? ==> products == [] && outcome == Pass
      ensures read.Decoded? ==>
                var loaded := DecodeAll(read.items);
                && products == old(products) + loaded.products
                && outcome == (if loaded.failure.None? then Pass else Fail(loaded.failure.value))
    {
      match read
      case NotFound =>
        products := [];
        outcome := Pass;
      case Undecodable =>
        products := [];
        outcome := Pass;
      case Decoded(items) =>
        var i := 0;
        while i < |items|
          invariant 0 <= i <= |items|
          invariant DecodeAll(items[..i]).failure.None?
          invariant products == old(products) + DecodeAll(items[..i]).products
        {
          DecodeAllStep(items, i);
          match Decode(items[i])
          case Failure(e) =>
            LoadFailureIsFinal(items, i + 1);
            return Fail(e);
          case Success(p) =>
            products := products + [p];
          i := i + 1;
        }
        assert items[..i] == items;
        outcome := Pass;
    }

    /** `guardar_productos`: overwrites the file with the records of the list, in order. */
    method Save()
      modifies this`file, this`saves
      ensures file == ToRecords(products) && saves == old(saves) + 1
    {
      file := ToRecords(products);
      saves := saves + 1;
    }

    /** `agregar_producto`: appends without checking for a duplicate name, then saves. */
    method Add(p: Product)
      modifies this`products, this`file, this`saves
      ensures products == old(products) + [p]
      ensures file == ToRecords(products) && saves == old(saves) + 1
    {
      products := products + [p];
      Save();
    }

    /** `eliminar_producto`: removes the first product called `name` and saves,
        or reports that there is none and changes nothing. */
    method Remove(name: string) returns (removed: bool)
      modifies this`products, this`file, this`saves
      ensures removed <==> FirstIndex(old(products), name).Some?
      ensures products == WithoutFirst(old(products), name)
      ensures removed ==> file == ToRecords(products) && saves == old(saves) + 1
      ensures !removed ==> file == old(file) && saves == old(saves)
    {
      var i := 0;
      while i < |products|
        invariant 0 <= i <= |products|
        invariant forall j :: 0 <= j < i ==> products[j].name != name
      {
        if products[i].name == name {
          products := products[..i] + products[i + 1..];
          Save();
          return true;
        }
        i := i + 1;
      }
      return false;
    }

    /** `buscar_producto`: the first product called `name`, or nothing. */
    method Find(name: string) returns (found: Option<Product>)
      ensures found.None? <==> forall j :: 0 <= j < |products| ==> products[j].name != name
      ensures found.Some? ==> FirstIndex(products, name).Some? &&
                              found.value == products[FirstIndex(products, name).value]
    {
      var i := 0;
      while i < |products|
        invariant 0 <= i <= |products|
        invariant forall j :: 0 <= j < i ==> products[j].name != name
      {
        if products[i].name == name {
          return Some(products[i]);
        }
        i := i + 1;
      }
      return None;
    }

    /** `actualizar_producto`: puts `q` in place of the first product called
        `name` and saves, or reports that there is none and changes nothing. */
    method Update(name: string, q: Product) returns (updated: bool)
      modifies this`products, this`file, this`saves
      ensures updated <==> FirstIndex(old(products), name).Some?
      ensures products == ReplaceFirst(old(products), name, q)
      ensures |products| == |old(products)|
      ensures updated ==> file == ToRecords(products) && saves == old(saves) + 1
      ensures !updated ==> file == old(file) && saves == old(saves)
    {
      var i := 0;
      while i < |products|
        invariant 0 <= i <= |products|
        invariant forall j :: 0 <= j < i ==> products[j].name != name
      {
        if products[i].name == name {
          products := products[i := q];
          Save();
          return true;
        }
        i := i + 1;
      }
      return false;
    }
  }

  /** Decoding one more record after a prefix that decoded cleanly. */
  lemma DecodeAllStep(items: seq<Record>, i: nat)
    requires i < |items|
    requires DecodeAll(items[..i]).failure.None?
    ensures DecodeAll(items[..i + 1]) ==
            match Decode(items[i])
            case Failure(e) => Loaded(DecodeAll(items[..i]).products, Some(e))
            case Success(p) => Loaded(DecodeAll(items[..i]).products + [p], None)
  {
    assert items[..i + 1][..i] == items[..i];
  }

  /** Once a prefix of the records fails to decode, every longer prefix fails the same way. */
  lemma {:induction false} LoadFailureIsFinal(items: seq<Record>, n: nat)
    requires n <= |items|
    requires DecodeAll(items[..n]).failure.Some?
    ensures DecodeAll(items) == DecodeAll(items[..n])
    decreases |items| - n
  {
    if n < |items| {
      assert items[..n + 1][..n] == items[..n];
      LoadFailureIsFinal(items, n + 1);
    } else {
      assert items[..n] == items;
    }
  }

  /** The add, find and remove walkthrough on an inventory whose file is missing. */
  method Walkthrough()
  {
    var inventory := new Inventory("productos.json");
    var outcome := inventory.Load(NotFound);
    assert inventory.products == [] && outcome == Pass;

    var laptop := Product("Laptop", 120000.0, 10, Electronic("Lenovo"));
    inventory.Add(laptop);
    assert inventory.products == [laptop];
    assert inventory.products[0].name == "Laptop";
    var found := inventory.Find("Laptop");
    assert found == Some(laptop);

    var milk := Product("Milk", 3.5, 50, Food("2024-08-31"));
    inventory.Add(milk);
    assert inventory.products == [laptop, milk];
    assert FirstIndex(inventory.products, "Milk") == Some(1);
    var removed := inventory.Remove("Milk");
    assert inventory.products == [laptop];
    assert removed;
    found := inventory.Find("Milk");
    assert found == None;
  }
}
