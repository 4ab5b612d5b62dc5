/**
 * The product resource of the back end (back/src/routes/products.ts) as pure
 * operations on the `products` array of the data file. Each handler becomes a
 * function from the catalog it read to a `Step`: the reply it sends and the
 * catalog it writes back. File I/O and failures of it are in ProductRoutes.
 */
module Catalog {
  import opened Wrappers
  import ProductModel

  /** The product fields other than `id`, as a JSON object of the data file or
      of a request body carries them; `None` is a key the object lacks. */
  datatype Attributes = Attributes(
    code: Option<string>,
    name: Option<string>,
    description: Option<string>,
    price: Option<real>,
    quantity: Option<int>,
    inventoryStatus: Option<ProductModel.InventoryStatus>,
    category: Option<string>,
    image: Option<string>,
    rating: Option<real>)

  /** A product as stored in the data file. POST always gives it an id; its
      other fields are whichever ones the creating body carried, so the shape
      the interface declares is not enforced. */
  datatype StoredProduct = StoredProduct(id: int, attrs: Attributes)

  /** A request body, restricted to the product fields. */
  datatype Body = Body(id: Option<int>, attrs: Attributes)

  /** What a handler answers: the whole list, one product, an empty 204,
      a 404, or a 500 when the data file could not be read or written. */
  datatype Reply =
    | All(products: seq<StoredProduct>)
    | Ok(product: StoredProduct)
    | NoContent
    | NotFound
    | StorageFailure

  /** A handler's reply with the catalog it leaves behind. */
  datatype Step = Step(reply: Reply, products: seq<StoredProduct>)

  /** One key of an object spread `{...kept, ...given}`. */
  function Pick<T>(kept: Option<T>, given: Option<T>): Option<T>
  {
    if given.Some? then given else kept
  }

  /** The non-id fields of `{...stored, ...given}`, field by field. */
  function Merge(stored: Attributes, given: Attributes): (r: Attributes)
    ensures Carries(r, given) && Keeps(r, stored, given)
  {
    Attributes(
      Pick(stored.code, given.code),
      Pick(stored.name, given.name),
      Pick(stored.description, given.description),
      Pick(stored.price, given.price),
      Pick(stored.quantity, given.quantity),
      Pick(stored.inventoryStatus, given.inventoryStatus),
      Pick(stored.category, given.category),
      Pick(stored.image, given.image),
      Pick(stored.rating, given.rating))
  }

  /** Every field `given` carries has the same value in `a`. */
  predicate Carries(a: Attributes, given: Attributes)
  {
    && (given.code.Some? ==> a.code == given.code)
    && (given.name.Some? ==> a.name == given.name)
    && (given.description.Some? ==> a.description == given.description)
    && (given.price.Some? ==> a.price == given.price)
    && (given.quantity.Some? ==> a.quantity == given.quantity)
    && (given.inventoryStatus.Some? ==> a.inventoryStatus == given.inventoryStatus)
    && (given.category.Some? ==> a.category == given.category)
    && (given.image.Some? ==> a.image == given.image)
    && (given.rating.Some? ==> a.rating == given.rating)
  }

  /** Every field `given` lacks has in `a` the value it has in `stored`. */
  predicate Keeps(a: Attributes, stored: Attributes, given: Attributes)
  {
    && (given.code.None? ==> a.code == stored.code)
    && (given.name.None? ==> a.name == stored.name)
    && (given.description.None? ==> a.description == stored.description)
    && (given.price.None? ==> a.price == stored.price)
    && (given.quantity.None? ==> a.quantity == stored.quantity)
    && (given.inventoryStatus.None? ==> a.inventoryStatus == stored.inventoryStatus)
    && (given.category.None? ==> a.category == stored.category)
    && (given.image.None? ==> a.image == stored.image)
    && (given.rating.None? ==> a.rating == stored.rating)
  }

  /** A body with no product field. */
  const NoFields := Attributes(None, None, None, None, None, None, None, None, None)

  /** `{...p, ...body}`: an `id` in the body replaces the stored one. */
  function Overlay(p: StoredProduct, body: Body): (r: StoredProduct)
    ensures Carries(r.attrs, body.attrs)
    ensures Keeps(r.attrs, p.attrs, body.attrs)
    ensures body.id.None? ==> r.id == p.id
    ensures body.id.Some? ==> r.id == body.id.value
    ensures body == Body(None, NoFields) ==> r == p
  {
    StoredProduct(if body.id.Some? then body.id.value else p.id, Merge(p.attrs, body.attrs))
  }

  /** The same spread followed by `updatedProduct.id = <old id>`. */
  function OverlayKeepingId(p: StoredProduct, body: Body): (r: StoredProduct)
    ensures r.id == p.id
    ensures Carries(r.attrs, body.attrs)
    ensures Keeps(r.attrs, p.attrs, body.attrs)
    ensures body.attrs == NoFields ==> r == p
  {
    Overlay(p, body).(id := p.id)
  }

  /** `{id: data.products.length + 1, ...body}` */
  function NewProduct(ps: seq<StoredProduct>, body: Body): (r: StoredProduct)
    ensures r.attrs == body.attrs
    ensures body.id.Some? ==> r.id == body.id.value
    ensures body.id.None? ==> r.id == |ps| + 1
    ensures body.id.None? && DenseIds(ps) ==> !HasId(ps, r.id)
  {
    StoredProduct(if body.id.Some? then body.id.value else |ps| + 1, body.attrs)
  }

  // HasId, UniqueIds and FindIndex mirror Cart.HasItem, Cart.DistinctIds and
  // Cart.IndexOf over stored products: the back end and the front end share
  // no code, and each of them writes its own lookup by id.

  predicate HasId(ps: seq<StoredProduct>, id: int)
  {
    exists i :: 0 <= i < |ps| && ps[i].id == id
  }

  /** No two products of the catalog share an id. */
  predicate UniqueIds(ps: seq<StoredProduct>)
  {
    forall i, j :: 0 <= i < j < |ps| ==> ps[i].id != ps[j].id
  }

  /** The ids are 1, 2, ..., n in order: the catalog a run of POSTs without
      body ids builds from an empty file. */
  predicate DenseIds(ps: seq<StoredProduct>)
  {
    forall i :: 0 <= i < |ps| ==> ps[i].id == i + 1
  }

  /** `findIndex(p => p.id === id)`: the first index holding `id`, or -1. */
  function FindIndex(ps: seq<StoredProduct>, id: int): (r: int)
    ensures -1 <= r < |ps|
    ensures r == -1 <==> !HasId(ps, id)
    ensures r >= 0 ==> ps[r].id == id && forall j :: 0 <= j < r ==> ps[j].id != id
  {
    if |ps| == 0 then -1
    else if ps[0].id == id then 0
    else
      var k := FindIndex(ps[1..], id);
      assert forall i :: 1 <= i < |ps| ==> ps[i] == ps[1..][i - 1];
      if k == -1 then -1 else k + 1
  }

  /** GET /:id, `find(p => p.id === id)`: the first product holding `id`. */
  function Find(ps: seq<StoredProduct>, id: int): (r: Option<StoredProduct>)
    ensures r.None? <==> !HasId(ps, id)
    ensures r.Some? ==>
      && r.value.id == id
      && exists i :: 0 <= i < |ps| && ps[i] == r.value && forall j :: 0 <= j < i ==> ps[j].id != id
  {
    var k := FindIndex(ps, id);
    if k == -1 then None else Some(ps[k])
  }

  /** POST: append the new product and answer with it. */
  function Create(ps: seq<StoredProduct>, body: Body): (s: Step)
    ensures s.reply.Ok? && s.products == ps + [s.reply.product]
    ensures s.reply.product.attrs == body.attrs
    ensures s.reply.product.id == if body.id.Some? then body.id.value else |ps| + 1
  {
    var p := NewProduct(ps, body);
    Step(Ok(p), ps + [p])
  }

  /** PUT /:id: overlay the body onto the first match, id included. */
  function Put(ps: seq<StoredProduct>, id: int, body: Body): (s: Step)
    ensures !HasId(ps, id) ==> s == Step(NotFound, ps)
    ensures HasId(ps, id) ==>
      var k := FindIndex(ps, id);
      && |s.products| == |ps|
      && (forall i :: 0 <= i < |ps| && i != k ==> s.products[i] == ps[i])
      && s.products[k].attrs == Merge(ps[k].attrs, body.attrs)
      && s.products[k].id == (if body.id.Some? then body.id.value else id)
      && s.reply == Ok(s.products[k])
  {
    var k := FindIndex(ps, id);
    if k == -1 then Step(NotFound, ps)
    else
      var updated := Overlay(ps[k], body);
      Step(Ok(updated), ps[k := updated])
  }

  /** PATCH /:id: the same overlay, but the stored id survives. */
  function Patch(ps: seq<StoredProduct>, id: int, body: Body): (s: Step)
    ensures !HasId(ps, id) ==> s == Step(NotFound, ps)
    ensures HasId(ps, id) ==>
      var k := FindIndex(ps, id);
      && |s.products| == |ps|
      && (forall i :: 0 <= i < |ps| && i != k ==> s.products[i] == ps[i])
      && s.products[k].attrs == Merge(ps[k].attrs, body.attrs)
      && s.products[k].id == id
      && s.reply == Ok(s.products[k])
  {
    var k := FindIndex(ps, id);
    if k == -1 then Step(NotFound, ps)
    else
      var updated := OverlayKeepingId(ps[k], body);
      Step(Ok(updated), ps[k := updated])
  }

  /** DELETE /:id: splice out the first match. */
  function Delete(ps: seq<StoredProduct>, id: int): (s: Step)
    ensures !HasId(ps, id) ==> s == Step(NotFound, ps)
    ensures HasId(ps, id) ==>
      var k := FindIndex(ps, id);
      && s.reply == NoContent
      && |s.products| == |ps| - 1
      && (forall i :: 0 <= i < k ==> s.products[i] == ps[i])
      && (forall i :: k <= i < |s.products| ==> s.products[i] == ps[i + 1])
  {
    var k := FindIndex(ps, id);
    if k == -1 then Step(NotFound, ps)
    else Step(NoContent, ps[..k] + ps[k + 1..])
  }

  /** A product created under an id nobody holds is what GET /:id then finds. */
  lemma CreateThenFind(ps: seq<StoredProduct>, body: Body)
    requires !HasId(ps, NewProduct(ps, body).id)
    ensures var s := Create(ps, body);
      Find(s.products, s.reply.product.id) == Some(s.reply.product)
  {
    var s := Create(ps, body);
    var p := s.reply.product;
    var k := FindIndex(s.products, p.id);
    assert s.products[|ps|] == p;
    assert k >= 0;
  }

  /** Without body ids and without deletions, POST keeps the ids 1..n, so
      they stay unique. */
  lemma CreateKeepsDenseIds(ps: seq<StoredProduct>, body: Body)
    requires DenseIds(ps) && body.id.None?
    ensures DenseIds(Create(ps, body).products)
    ensures UniqueIds(Create(ps, body).products)
  {
    var qs := Create(ps, body).products;
    assert forall i :: 0 <= i < |qs| ==> qs[i].id == i + 1 by {
      forall i | 0 <= i < |qs| ensures qs[i].id == i + 1 {
        if i < |ps| { assert qs[i] == ps[i]; }
      }
    }
  }

  /** Deleting any product but the last from a dense catalog and then creating
      one hands out the id of the last product a second time: length-based ids
      do not keep ids unique. */
  lemma DeleteThenCreateReusesId(ps: seq<StoredProduct>, id: int, body: Body)
    requires DenseIds(ps) && 1 <= id < |ps| && body.id.None?
    ensures var after := Delete(ps, id).products;
      var s := Create(after, body);
      && s.reply.product.id == |ps|
      && HasId(after, |ps|)
      && !UniqueIds(s.products)
  {
    assert ps[id - 1].id == id;
    assert HasId(ps, id);
    var k := FindIndex(ps, id);
    assert k == id - 1;
    var after := Delete(ps, id).products;
    var last := |after| - 1;
    assert after[last] == ps[last + 1];
    assert after[last].id == |ps|;
    var s := Create(after, body);
    assert s.products[last] == after[last];
    assert s.products[|after|].id == |ps|;
  }

  /** A body carrying an id that is already taken creates a duplicate. */
  lemma CreateWithTakenIdDuplicates(ps: seq<StoredProduct>, body: Body)
    requires body.id.Some? && HasId(ps, body.id.value)
    ensures !UniqueIds(Create(ps, body).products)
  {
    var i :| 0 <= i < |ps| && ps[i].id == body.id.value;
    var qs := Create(ps, body).products;
    assert qs[i] == ps[i];
    assert qs[|ps|].id == body.id.value;
  }

  /** PATCH never changes an id, so unique ids stay unique. */
  lemma PatchKeepsUniqueIds(ps: seq<StoredProduct>, id: int, body: Body)
    requires UniqueIds(ps)
    ensures UniqueIds(Patch(ps, id, body).products)
  {
    var qs := Patch(ps, id, body).products;
    assert forall i :: 0 <= i < |qs| ==> qs[i].id == ps[i].id;
  }

  /** Sending the same PATCH twice leaves what sending it once left. */
  /** A PATCH whose body carries only a price, whatever its id, changes that
      price and nothing else in the catalog. */
  lemma PatchPriceOnly(ps: seq<StoredProduct>, id: int, body: Body, price: real)
    requires HasId(ps, id)
    requires body.attrs == NoFields.(price := Some(price))
    ensures var k := FindIndex(ps, id);
      Patch(ps, id, body).products == ps[k := ps[k].(attrs := ps[k].attrs.(price := Some(price)))]
  {
  }

  lemma PatchIdempotent(ps: seq<StoredProduct>, id: int, body: Body)
    ensures var s := Patch(ps, id, body);
      Patch(s.products, id, body) == s
  {
    var s := Patch(ps, id, body);
    if HasId(ps, id) {
      var k := FindIndex(ps, id);
      var qs := s.products;
      assert qs[k].id == id;
      assert HasId(qs, id);
      var k' := FindIndex(qs, id);
      assert k' == k;
      assert OverlayKeepingId(qs[k], body) == qs[k];
      assert qs[k := qs[k]] == qs;
    }
  }

  /** PUT and PATCH differ exactly when the target exists and the body
      carries an id other than the requested one. */
  lemma PutEqualsPatchIff(ps: seq<StoredProduct>, id: int, body: Body)
    ensures Put(ps, id, body) == Patch(ps, id, body)
        <==> !HasId(ps, id) || body.id.None? || body.id == Some(id)
  {
    if HasId(ps, id) && body.id.Some? && body.id != Some(id) {
      var k := FindIndex(ps, id);
      assert Put(ps, id, body).products[k].id != Patch(ps, id, body).products[k].id;
    }
  }

  /** With unique ids, GET /:id after DELETE /:id answers 404. */
  lemma DeleteThenFind(ps: seq<StoredProduct>, id: int)
    requires UniqueIds(ps)
    ensures Find(Delete(ps, id).products, id).None?
  {
    if HasId(ps, id) {
      var k := FindIndex(ps, id);
      var qs := Delete(ps, id).products;
      forall i | 0 <= i < |qs| ensures qs[i].id != id {
        if i < k {
          assert qs[i] == ps[i];
        } else {
          assert qs[i] == ps[i + 1];
        }
      }
    }
  }

  /** DELETE keeps unique ids unique. */
  lemma DeleteKeepsUniqueIds(ps: seq<StoredProduct>, id: int)
    requires UniqueIds(ps)
    ensures UniqueIds(Delete(ps, id).products)
  {
    if HasId(ps, id) {
      var k := FindIndex(ps, id);
      var qs := Delete(ps, id).products;
      forall i, j | 0 <= i < j < |qs| ensures qs[i].id != qs[j].id {
        var i' := if i < k then i else i + 1;
        var j' := if j < k then j else j + 1;
        assert qs[i] == ps[i'] && qs[j] == ps[j'];
      }
    }
  }
}

/**
 * The route handlers with their storage (back/src/routes/products.ts): the
 * data file is a field, each handler reads it into a local copy, changes the
 * copy and writes it back. Whether the read and the write succeed is a
 * parameter of each request.
 */
module ProductRoutes {
  import opened Wrappers
  import opened Catalog

  /** Whether `readData` (read and JSON parse) and `writeData` succeed
      during one request. */
  datatype Storage = Storage(readOk: bool, writeOk: bool)

  class ProductRouter {
    /** The `products` array of the data file. */
    var file: seq<StoredProduct>

    constructor (initial: seq<StoredProduct>)
      ensures file == initial
    {
      file := initial;
    }

    /** GET /: the whole catalog. */
    method GetAll(io: Storage) returns (reply: Reply)
      ensures reply == if io.readOk then All(file) else StorageFailure
    {
      if !io.readOk {
        return StorageFailure;
      }
      var data := file;
      reply := All(data);
    }

    /** GET /:id: the first product holding `id`, or 404. */
    method GetById(id: int, io: Storage) returns (reply: Reply)
      ensures !io.readOk ==> reply == StorageFailure
      ensures io.readOk && !HasId(file, id) ==> reply == NotFound
      ensures io.readOk && HasId(file, id) ==>
        reply.Ok? && reply.product.id == id && Find(file, id) == Some(reply.product)
    {
      if !io.readOk {
        return StorageFailure;
      }
      var data := file;
      var product := Find(data, id);
      if product.None? {
        return NotFound;
      }
      reply := Ok(product.value);
    }

    /** POST /: append `{id: length + 1, ...body}` and write the file. */
    method Post(body: Body, io: Storage) returns (reply: Reply)
      modifies this
      ensures io.readOk && io.writeOk ==> Step(reply, file) == Create(old(file), body)
      ensures !(io.readOk && io.writeOk) ==> reply == StorageFailure && file == old(file)
    {
      if !io.readOk {
        return StorageFailure;
      }
      var data := file;
      var newProduct := NewProduct(data, body);
      data := data + [newProduct];
      if !io.writeOk {
        return StorageFailure;
      }
      file := data;
      reply := Ok(newProduct);
    }

    /** PUT /:id: overlay the body onto the first match and write the file;
        404 without a write when no product holds `id`. */
    method Put(id: int, body: Body, io: Storage) returns (reply: Reply)
      modifies this
      ensures !io.readOk ==> reply == StorageFailure && file == old(file)
      ensures io.readOk && !HasId(old(file), id) ==> reply == NotFound && file == old(file)
      ensures io.readOk && HasId(old(file), id) && io.writeOk ==>
        Step(reply, file) == Catalog.Put(old(file), id, body)
      ensures io.readOk && HasId(old(file), id) && !io.writeOk ==>
        reply == StorageFailure && file == old(file)
    {
      if !io.readOk {
        return StorageFailure;
      }
      var data := file;
      var index := FindIndex(data, id);
      if index == -1 {
        return NotFound;
      }
      data := data[index := Overlay(data[index], body)];
      if !io.writeOk {
        return StorageFailure;
      }
      file := data;
      reply := Ok(data[index]);
    }

    /** PATCH /:id: as PUT, then the stored id is written back over
        whatever id the body carried. */
    method Patch(id: int, body: Body, io: Storage) returns (reply: Reply)
      modifies this
      ensures !io.readOk ==> reply == StorageFailure && file == old(file)
      ensures io.readOk && !HasId(old(file), id) ==> reply == NotFound && file == old(file)
      ensures io.readOk && HasId(old(file), id) && io.writeOk ==>
        Step(reply, file) == Catalog.Patch(old(file), id, body)
      ensures io.readOk && HasId(old(file), id) && !io.writeOk ==>
        reply == StorageFailure && file == old(file)
    {
      if !io.readOk {
        return StorageFailure;
      }
      var data := file;
      var index := FindIndex(data, id);
      if index == -1 {
        return NotFound;
      }
      var updated := Overlay(data[index], body);
      updated := updated.(id := data[index].id);
      data := data[index := updated];
      if !io.writeOk {
        return StorageFailure;
      }
      file := data;
      reply := Ok(updated);
    }

    /** DELETE /:id: splice out the first match and write the file. */
    method Delete(id: int, io: Storage) returns (reply: Reply)
      modifies this
      ensures !io.readOk ==> reply == StorageFailure && file == old(file)
      ensures io.readOk && !HasId(old(file), id) ==> reply == NotFound && file == old(file)
      ensures io.readOk && HasId(old(file), id) && io.writeOk ==>
        Step(reply, file) == Catalog.Delete(old(file), id)
      ensures io.readOk && HasId(old(file), id) && !io.writeOk ==>
        reply == StorageFailure && file == old(file)
    {
      if !io.readOk {
        return StorageFailure;
      }
      var data := file;
      var index := FindIndex(data, id);
      if index == -1 {
        return NotFound;
      }
      data := data[..index] + data[index + 1..];
      if !io.writeOk {
        return StorageFailure;
      }
      file := data;
      reply := NoContent;
    }
  }
}
