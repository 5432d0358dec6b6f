/** The handler wired to the application over a pub client and a worker client, both abstract
    and independent of each other: what a client of the gateway can observe. */
module Gateway {
  import opened Values
  import opened Dto
  import Rpc
  import Application
  import opened Handler

  /** What the product endpoint answers, given the two clients behind the application. */
  function Serve(pub: Rpc.Client, worker: Rpc.Client, lib: Lib, req: Request): (r: Handled)
    ensures lib.router(req.verb, req.path, Routes).None? ==>
      r == Handled(Response(StatusNotFound, RouteNotFoundBody(req.verb, req.path)), None)
    ensures r.appCall.Some? ==> RouteOf(r.appCall.value) == lib.router(req.verb, req.path, Routes)
  {
    HandlerProduct(Application.NewApplication(pub, worker), lib, req)
  }

  /** Swapping the pub client for any other, for instance one that always fails, changes neither
      the status nor the body of any response. */
  lemma SecondaryNeverObservable(pub1: Rpc.Client, pub2: Rpc.Client, worker: Rpc.Client, lib: Lib, req: Request)
    ensures Serve(pub1, worker, lib, req) == Serve(pub2, worker, lib, req)
  {
    var app1 := Application.NewApplication(pub1, worker);
    var app2 := Application.NewApplication(pub2, worker);
    match lib.router(req.verb, req.path, Routes)
    case None =>
    case Some(h) =>
      match h
      case CategoryRoute => CategoryIgnoresPub(pub1, pub2, worker, lib, req);
      case SaveRoute => SaveIgnoresPub(pub1, pub2, worker, lib, req);
      case UpdateRoute => UpdateIgnoresPub(pub1, pub2, worker, lib, req);
      case DeleteRoute => DeleteIgnoresPub(pub1, pub2, worker, lib, req);
  }

  lemma DeleteIgnoresPub(pub1: Rpc.Client, pub2: Rpc.Client, worker: Rpc.Client, lib: Lib, req: Request)
    ensures DeleteProductByUUID(Application.NewApplication(pub1, worker), lib, req)
         == DeleteProductByUUID(Application.NewApplication(pub2, worker), lib, req)
  {
  }

  lemma CategoryIgnoresPub(pub1: Rpc.Client, pub2: Rpc.Client, worker: Rpc.Client, lib: Lib, req: Request)
    ensures GetProductByCategory(Application.NewApplication(pub1, worker), lib, req)
         == GetProductByCategory(Application.NewApplication(pub2, worker), lib, req)
  {
    var app1 := Application.NewApplication(pub1, worker);
    var app2 := Application.NewApplication(pub2, worker);
    assert app1.getProductByCategory(req.category) == app2.getProductByCategory(req.category);
  }

  lemma SaveIgnoresPub(pub1: Rpc.Client, pub2: Rpc.Client, worker: Rpc.Client, lib: Lib, req: Request)
    ensures SaveProduct(Application.NewApplication(pub1, worker), lib, req)
         == SaveProduct(Application.NewApplication(pub2, worker), lib, req)
  {
    var app1 := Application.NewApplication(pub1, worker);
    var app2 := Application.NewApplication(pub2, worker);
    if req.body.Ok? && lib.unmarshal(req.body.value).Ok? {
      var p := lib.unmarshal(req.body.value).value;
      assert app1.saveProduct(p) == app2.saveProduct(p);
    }
  }

  lemma UpdateIgnoresPub(pub1: Rpc.Client, pub2: Rpc.Client, worker: Rpc.Client, lib: Lib, req: Request)
    ensures UpdateProductByUUID(Application.NewApplication(pub1, worker), lib, req)
         == UpdateProductByUUID(Application.NewApplication(pub2, worker), lib, req)
  {
    var app1 := Application.NewApplication(pub1, worker);
    var app2 := Application.NewApplication(pub2, worker);
    var r1 := UpdateProductByUUID(app1, lib, req);
    if r1.appCall.Some? {
      var c := r1.appCall.value;
      assert app1.updateProductByID(c.id, c.product) == app2.updateProductByID(c.id, c.product);
    }
  }

  /** A worker that answers a create with neither a product nor an error yields a 500 that carries
      the dedicated "because it's null" message. */
  lemma SaveNullProductIsServerError(pub: Rpc.Client, worker: Rpc.Client, lib: Lib, req: Request)
    requires lib.router(req.verb, req.path, Routes) == Some(SaveRoute)
    requires req.verb == MethodPost && req.body.Ok? && lib.unmarshal(req.body.value).Ok?
    requires worker.saveProduct(lib.unmarshal(req.body.value).value) == Outcome(None, None)
    ensures Serve(pub, worker, lib, req).response
         == Response(StatusInternalServerError,
                     ErrorBody("error to save product: ", Error(Application.NullProductMessage)))
  {
    var app := Application.NewApplication(pub, worker);
    var p := lib.unmarshal(req.body.value).value;
    assert app.saveProduct(p) == Outcome(None, Some(Error(Application.NullProductMessage)));
    assert Serve(pub, worker, lib, req) == SaveProduct(app, lib, req);
  }

  /** A category the worker answers with a nil list is reported as 404 "product not found". */
  lemma NilCategoryIsNotFound(pub: Rpc.Client, worker: Rpc.Client, lib: Lib, req: Request)
    requires lib.router(req.verb, req.path, Routes) == Some(CategoryRoute)
    requires worker.getProductByCategory(req.category) == Outcome(None, None)
    ensures Serve(pub, worker, lib, req).response == Response(StatusNotFound, ProductNotFoundBody)
  {
  }

  /** A category the worker answers with an empty but non-nil list is reported as 200 with the
      marshalled empty list, not as 404. */
  lemma EmptyCategoryIsOK(pub: Rpc.Client, worker: Rpc.Client, lib: Lib, req: Request)
    requires lib.router(req.verb, req.path, Routes) == Some(CategoryRoute)
    requires worker.getProductByCategory(req.category) == Outcome(Some([]), None)
    requires lib.marshalList([]).Ok?
    ensures Serve(pub, worker, lib, req).response == Response(StatusOK, lib.marshalList([]).value)
  {
  }
}
