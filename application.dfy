/** The orchestration layer: every operation notifies the "pub" client with its arguments, whose
    answer is discarded, and turns the worker client's answer into the operation's result. */
module Application {
  import opened Values
  import opened Dto
  import Rpc

  /** The error a write path reports when the worker answers with neither a product nor an error. */
  const NullProductMessage: string := "is not possible to save product because it's null"

  /** The two clients the application holds: `productRPC` is notified, `productWorkerRPC` is awaited. */
  datatype Backends = Backends(productRPC: Rpc.Client, productWorkerRPC: Rpc.Client)

  /** What one operation did: the call it fired at the pub client, the call it awaited on the
      worker client, and the result it returned. */
  datatype Run<+R> = Run(published: Rpc.Call, awaited: Rpc.Call, result: R)

  /** The application interface the HTTP handler uses (message identifiers left out). */
  datatype App = App(
    getProductByID: string -> Outcome<OutputProduct>,
    saveProduct: RequestProduct -> Outcome<OutputProduct>,
    updateProductByID: (string, RequestProduct) -> Outcome<OutputProduct>,
    getProductByCategory: string -> Outcome<seq<OutputProduct>>,
    deleteProductByID: string -> Option<Error>)

  /** The field-by-field copy made on the read paths, which fills DeactivatedAt from CreatedAt. */
  function ReadCopy(p: OutputProduct): (r: OutputProduct)
    ensures r == p.(deactivatedAt := p.createdAt)
  {
    OutputProduct(p.uuid, p.name, p.category, p.image, p.description, p.price, p.createdAt, p.createdAt)
  }

  /** The field-by-field copy made on the write paths: all eight fields carry over unchanged. */
  function WriteCopy(p: OutputProduct): (r: OutputProduct)
    ensures r == p
  {
    OutputProduct(p.uuid, p.name, p.category, p.image, p.description, p.price, p.createdAt, p.deactivatedAt)
  }

  /** The read-path copy of every element of a list, in order. */
  function ReadCopies(s: seq<OutputProduct>): (r: seq<OutputProduct>)
    ensures |r| == |s|
    ensures forall i :: 0 <= i < |s| ==> r[i] == s[i].(deactivatedAt := s[i].createdAt)
  {
    if s == [] then [] else [ReadCopy(s[0])] + ReadCopies(s[1..])
  }

  /** A worker error is passed on as it is; a nil product is "not found", not an error. */
  function GetProductByID(b: Backends, uuid: string): (r: Run<Outcome<OutputProduct>>)
    ensures r.published == r.awaited == Rpc.GetByID(uuid)
    ensures var w := b.productWorkerRPC.getProductByID(uuid);
      && r.result.err == w.err
      && (r.result.value.Some? <==> w.err.None? && w.value.Some?)
      && (r.result.value.Some? ==>
            r.result.value.value == w.value.value.(deactivatedAt := w.value.value.createdAt))
  {
    var w := b.productWorkerRPC.getProductByID(uuid);
    Run(Rpc.GetByID(uuid), Rpc.GetByID(uuid),
      if w.err.Some? then Outcome(None, w.err)
      else if w.value.None? then Outcome(None, None)
      else Outcome(Some(ReadCopy(w.value.value)), None))
  }

  /** The shared tail of the two write paths: an error passes through, a nil product becomes the
      dedicated error, and otherwise the product is returned unchanged. */
  function WriteResult(w: Outcome<OutputProduct>): (r: Outcome<OutputProduct>)
    ensures w.err.Some? ==> r == Outcome(None, w.err)
    ensures w.err.None? && w.value.None? ==> r == Outcome(None, Some(Error(NullProductMessage)))
    ensures r.value.Some? <==> w.err.None? && w.value.Some?
    ensures r.value.Some? ==> r.value == w.value && r.err.None?
    ensures r.value.None? <==> r.err.Some?
  {
    if w.err.Some? then Outcome(None, w.err)
    else if w.value.None? then Outcome(None, Some(Error(NullProductMessage)))
    else Outcome(Some(WriteCopy(w.value.value)), None)
  }

  /** Exactly one of a product and an error comes back; the product is the worker's, field for field. */
  function SaveProduct(b: Backends, product: RequestProduct): (r: Run<Outcome<OutputProduct>>)
    ensures r.published == r.awaited == Rpc.Save(product)
    ensures var w := b.productWorkerRPC.saveProduct(product);
      && (w.err.Some? ==> r.result == Outcome(None, w.err))
      && (w.err.None? && w.value.None? ==> r.result == Outcome(None, Some(Error(NullProductMessage))))
      && (r.result.value.Some? <==> w.err.None? && w.value.Some?)
      && (r.result.value.Some? ==> r.result == Outcome(w.value, None))
      && (r.result.value.None? <==> r.result.err.Some?)
  {
    Run(Rpc.Save(product), Rpc.Save(product), WriteResult(b.productWorkerRPC.saveProduct(product)))
  }

  /** As SaveProduct, with the same "because it's null" error on a nil product. */
  function UpdateProductByID(b: Backends, id: string, product: RequestProduct): (r: Run<Outcome<OutputProduct>>)
    ensures r.published == r.awaited == Rpc.UpdateByID(id, product)
    ensures var w := b.productWorkerRPC.updateProductByID(id, product);
      && (w.err.Some? ==> r.result == Outcome(None, w.err))
      && (w.err.None? && w.value.None? ==> r.result == Outcome(None, Some(Error(NullProductMessage))))
      && (r.result.value.Some? <==> w.err.None? && w.value.Some?)
      && (r.result.value.Some? ==> r.result == Outcome(w.value, None))
      && (r.result.value.None? <==> r.result.err.Some?)
  {
    Run(Rpc.UpdateByID(id, product), Rpc.UpdateByID(id, product),
      WriteResult(b.productWorkerRPC.updateProductByID(id, product)))
  }

  /** A nil list is "not found"; any other list, even an empty one, comes back element by element
      in the same order, each with DeactivatedAt taken from CreatedAt. */
  function ByCategory(b: Backends, category: string): (r: Run<Outcome<seq<OutputProduct>>>)
    ensures r.published == r.awaited == Rpc.ListByCategory(category)
    ensures var w := b.productWorkerRPC.getProductByCategory(category);
      && r.result.err == w.err
      && (r.result.value.Some? <==> w.err.None? && w.value.Some?)
      && (r.result.value.Some? ==>
            && |r.result.value.value| == |w.value.value|
            && forall i :: 0 <= i < |w.value.value| ==>
                 r.result.value.value[i] == w.value.value[i].(deactivatedAt := w.value.value[i].createdAt))
  {
    var w := b.productWorkerRPC.getProductByCategory(category);
    Run(Rpc.ListByCategory(category), Rpc.ListByCategory(category),
      if w.err.Some? then Outcome(None, w.err)
      else if w.value.None? then Outcome(None, None)
      else Outcome(Some(ReadCopies(w.value.value)), None))
  }

  /** The list operation as the source runs it: the result list is built by appending copies. */
  method GetProductByCategory(b: Backends, category: string)
    returns (published: Rpc.Call, awaited: Rpc.Call, products: Option<seq<OutputProduct>>, err: Option<Error>)
    ensures Run(published, awaited, Outcome(products, err)) == ByCategory(b, category)
  {
    var productList: seq<OutputProduct> := [];
    published := Rpc.ListByCategory(category);
    awaited := Rpc.ListByCategory(category);
    var w := b.productWorkerRPC.getProductByCategory(category);
    if w.err.Some? {
      return published, awaited, None, w.err;
    }
    if w.value.None? {
      return published, awaited, None, None;
    }
    var items := w.value.value;
    var i := 0;
    while i < |items|
      invariant 0 <= i <= |items|
      invariant productList == ReadCopies(items[..i])
    {
      assert items[..i + 1] == items[..i] + [items[i]];
      ReadCopiesAppend(items[..i], [items[i]]);
      productList := productList + [ReadCopy(items[i])];
      i := i + 1;
    }
    assert items[..i] == items;
    products, err := Some(productList), None;
  }

  /** Delete reports exactly the worker's error. */
  function DeleteProductByID(b: Backends, id: string): (r: Run<Option<Error>>)
    ensures r.published == r.awaited == Rpc.DeleteByID(id)
    ensures r.result == b.productWorkerRPC.deleteProductByID(id)
  {
    Run(Rpc.DeleteByID(id), Rpc.DeleteByID(id), b.productWorkerRPC.deleteProductByID(id))
  }

  /** The application over a pub client and a worker client, as the handler sees it: each entry
      of the interface is the matching operation's result; the pub client is carried, never applied. */
  function NewApplication(productRPC: Rpc.Client, productWorkerRPC: Rpc.Client): (a: App)
    ensures forall uuid ::
      (a.getProductByID(uuid) == GetProductByID(Backends(productRPC, productWorkerRPC), uuid).result)
    ensures forall product ::
      (a.saveProduct(product) == SaveProduct(Backends(productRPC, productWorkerRPC), product).result)
    ensures forall id, product ::
      (a.updateProductByID(id, product) == UpdateProductByID(Backends(productRPC, productWorkerRPC), id, product).result)
    ensures forall category ::
      (a.getProductByCategory(category) == ByCategory(Backends(productRPC, productWorkerRPC), category).result)
    ensures forall id ::
      (a.deleteProductByID(id) == DeleteProductByID(Backends(productRPC, productWorkerRPC), id).result)
  {
    var b := Backends(productRPC, productWorkerRPC);
    App(
      uuid => GetProductByID(b, uuid).result,
      product => SaveProduct(b, product).result,
      (id, product) => UpdateProductByID(b, id, product).result,
      category => ByCategory(b, category).result,
      id => DeleteProductByID(b, id).result)
  }

  /** No operation's result depends on the pub client. */
  lemma PubOutcomeIgnored(pub1: Rpc.Client, pub2: Rpc.Client, worker: Rpc.Client,
                          id: string, product: RequestProduct, category: string)
    ensures GetProductByID(Backends(pub1, worker), id) == GetProductByID(Backends(pub2, worker), id)
    ensures SaveProduct(Backends(pub1, worker), product) == SaveProduct(Backends(pub2, worker), product)
    ensures UpdateProductByID(Backends(pub1, worker), id, product)
         == UpdateProductByID(Backends(pub2, worker), id, product)
    ensures ByCategory(Backends(pub1, worker), category) == ByCategory(Backends(pub2, worker), category)
    ensures DeleteProductByID(Backends(pub1, worker), id) == DeleteProductByID(Backends(pub2, worker), id)
  {
  }

  /** The read-path copy differs from the worker's product in at most DeactivatedAt, and leaves it
      alone exactly when the two timestamps already agree. */
  lemma ReadCopyChangesOnlyDeactivation(p: OutputProduct)
    ensures ReadCopy(p) == WriteCopy(p).(deactivatedAt := p.createdAt)
    ensures ReadCopy(p) == p <==> p.deactivatedAt == p.createdAt
    ensures ReadCopy(ReadCopy(p)) == ReadCopy(p)
  {
  }

  /** Copying a list is the same as copying its parts. */
  lemma {:induction false} ReadCopiesAppend(s: seq<OutputProduct>, t: seq<OutputProduct>)
    ensures ReadCopies(s + t) == ReadCopies(s) + ReadCopies(t)
  {
    if s == [] {
      assert s + t == t;
    } else {
      assert (s + t)[1..] == s[1..] + t;
      ReadCopiesAppend(s[1..], t);
    }
  }
}
