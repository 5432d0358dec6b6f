/** The HTTP handler: each handler takes its early returns and writes exactly one status and one body.
    A handler is a function from the request, the outcomes of the library calls it makes and the
    application's answers to the one response it writes and the application call it made, if any. */
module Handler {
  import opened Values
  import opened Dto
  import Rpc
  import Application

  const StatusOK: int := 200
  const StatusCreated: int := 201
  const StatusNotFound: int := 404
  const StatusMethodNotAllowed: int := 405
  const StatusInternalServerError: int := 500

  const MethodGet: string := "GET"
  const MethodPost: string := "POST"
  const MethodDelete: string := "DELETE"

  /** An inbound request: its method, its URL path, the value of its `category` query parameter,
      and what reading its body into a buffer gave. */
  datatype Request = Request(verb: string, path: string, category: string, body: Fallible<string>)

  /** The status and body written on the response writer. */
  datatype Response = Response(status: int, body: string)

  /** What a handler did: the response it wrote and the application operation it invoked, if any. */
  datatype Handled = Handled(response: Response, appCall: Option<Rpc.Call>)

  /** The sub-handlers the route table can select. */
  datatype Route = CategoryRoute | SaveRoute | UpdateRoute | DeleteRoute

  /** The library and helper calls the handlers make, left uninterpreted.
      `parseDeactivation` stands for setting the deactivation time from its text and formatting it
      again; `formatUnset` for formatting the deactivation time the request's entity starts with. */
  datatype Lib = Lib(
    router: (string, string, map<string, Route>) -> Option<Route>,
    getID: (string, string) -> string,
    unmarshal: string -> Fallible<RequestProduct>,
    parseDeactivation: string -> Fallible<string>,
    formatUnset: RequestProduct -> string,
    marshal: Option<OutputProduct> -> string,
    marshalList: seq<OutputProduct> -> Fallible<string>)

  /** The routes, keyed by lower-case method and path pattern. */
  const Routes: map<string, Route> := map[
    RouteKey("get", CollectionPattern) := CategoryRoute,
    RouteKey("post", CollectionPattern) := SaveRoute,
    RouteKey("put", ItemPattern) := UpdateRoute,
    RouteKey("delete", ItemPattern) := DeleteRoute]

  const CollectionPattern: string := "hermes_foods/product"
  const ItemPattern: string := "hermes_foods/product/{id}"

  /** A route key: a method and a path pattern separated by a space. */
  function RouteKey(verb: string, pattern: string): string
  {
    verb + " " + pattern
  }

  const MethodNotAllowedBody: string := "{\"error\": \"method not allowed\"} "
  const HealthMethodNotAllowedBody: string := "{\"error\": \"method not allowed\"}"
  const HealthOKBody: string := "{\"status\": \"OK\"}"
  const DeletedBody: string := "{\"status\":\"OK\"}"
  const ProductNotFoundBody: string := "{\"error\": \"product not found\"}"

  const RouteNotFoundPrefix: string := "{\"error\": \"route "
  const RouteNotFoundSuffix: string := " not found\"} "

  /** The body written when no route matches. */
  function RouteNotFoundBody(verb: string, path: string): string
  {
    RouteNotFoundPrefix + verb + " " + path + RouteNotFoundSuffix
  }

  /** An error body `{"error": "<context><error text>"} `. */
  function ErrorBody(context: string, e: Error): string
  {
    "{\"error\": \"" + context + e.message + "\"} "
  }

  /** A 500 response with an error body, written before the application is invoked. */
  function Failed(context: string, e: Error): Handled
  {
    Handled(Response(StatusInternalServerError, ErrorBody(context, e)), None)
  }

  /** The route whose handler may invoke the given application operation. */
  function RouteOf(c: Rpc.Call): Option<Route>
  {
    match c
    case GetByID(_) => None
    case Save(_) => Some(SaveRoute)
    case UpdateByID(_, _) => Some(UpdateRoute)
    case ListByCategory(_) => Some(CategoryRoute)
    case DeleteByID(_) => Some(DeleteRoute)
  }

  /** The method part of a route key: everything before its first space. */
  function MethodOf(key: string): (m: string)
    ensures |m| <= |key| && m == key[..|m|]
    ensures ' ' !in m
  {
    if key == [] || key[0] == ' ' then [] else [key[0]] + MethodOf(key[1..])
  }

  predicate IsLowerCase(s: string)
  {
    forall i :: 0 <= i < |s| ==> !('A' <= s[i] <= 'Z')
  }

  /** A key made of a method, a space and a pattern has that method as its method part. */
  lemma {:induction false} MethodOfKey(m: string, pattern: string)
    requires ' ' !in m
    ensures MethodOf(m + " " + pattern) == m
  {
    if m != [] {
      assert (m + " " + pattern)[1..] == m[1..] + " " + pattern;
      MethodOfKey(m[1..], pattern);
    }
  }

  /** The route table holds exactly four keys: get and post on the collection, put and delete on an item. */
  lemma RoutesShape()
    ensures Routes.Keys == {RouteKey("get", CollectionPattern), RouteKey("post", CollectionPattern),
                            RouteKey("put", ItemPattern), RouteKey("delete", ItemPattern)}
    ensures |Routes| == 4
  {
  }

  /** Every key of the route table has a lower-case method: get, post, put or delete. */
  lemma RouteMethodsLowerCase()
    ensures forall k :: k in Routes ==> IsLowerCase(MethodOf(k))
    ensures MethodOf(RouteKey("get", CollectionPattern)) == "get"
    ensures MethodOf(RouteKey("post", CollectionPattern)) == "post"
    ensures MethodOf(RouteKey("put", ItemPattern)) == "put"
    ensures MethodOf(RouteKey("delete", ItemPattern)) == "delete"
  {
    MethodOfKey("get", CollectionPattern);
    MethodOfKey("post", CollectionPattern);
    MethodOfKey("put", ItemPattern);
    MethodOfKey("delete", ItemPattern);
    assert IsLowerCase("get") && IsLowerCase("post") && IsLowerCase("put") && IsLowerCase("delete");
  }

  /** The 404 body names the method and the path verbatim, at known offsets. */
  lemma RouteNotFoundBodyNamesRequest(verb: string, path: string)
    ensures var body := RouteNotFoundBody(verb, path);
      var m := |RouteNotFoundPrefix|;
      var p := m + |verb| + 1;
      && |body| == p + |path| + |RouteNotFoundSuffix|
      && body[m..m + |verb|] == verb
      && body[p..p + |path|] == path
  {
  }

  /** Hand the request to the matched sub-handler. */
  function Dispatch(h: Route, app: Application.App, lib: Lib, req: Request): (r: Handled)
    ensures h == CategoryRoute ==> r == GetProductByCategory(app, lib, req)
    ensures h == SaveRoute ==> r == SaveProduct(app, lib, req)
    ensures h == UpdateRoute ==> r == UpdateProductByUUID(app, lib, req)
    ensures h == DeleteRoute ==> r == DeleteProductByUUID(app, lib, req)
    ensures r.appCall.Some? ==> RouteOf(r.appCall.value) == Some(h)
  {
    match h
    case CategoryRoute => GetProductByCategory(app, lib, req)
    case SaveRoute => SaveProduct(app, lib, req)
    case UpdateRoute => UpdateProductByUUID(app, lib, req)
    case DeleteRoute => DeleteProductByUUID(app, lib, req)
  }

  /** No match writes 404 naming the method and path and invokes nothing; a match runs exactly
      the matched sub-handler, which invokes only its own application operation. */
  function HandlerProduct(app: Application.App, lib: Lib, req: Request): (r: Handled)
    ensures lib.router(req.verb, req.path, Routes).None? ==>
      r == Handled(Response(StatusNotFound, RouteNotFoundBody(req.verb, req.path)), None)
    ensures lib.router(req.verb, req.path, Routes).Some? ==>
      r == Dispatch(lib.router(req.verb, req.path, Routes).value, app, lib, req)
    ensures r.appCall.Some? ==> RouteOf(r.appCall.value) == lib.router(req.verb, req.path, Routes)
  {
    match lib.router(req.verb, req.path, Routes)
    case Some(h) => Dispatch(h, app, lib, req)
    case None => Handled(Response(StatusNotFound, RouteNotFoundBody(req.verb, req.path)), None)
  }

  /** 200 exactly for GET, 405 otherwise. */
  function HealthCheck(verb: string): (r: Response)
    ensures r.status == StatusOK <==> verb == MethodGet
    ensures verb == MethodGet ==> r.body == HealthOKBody
    ensures verb != MethodGet ==> r == Response(StatusMethodNotAllowed, HealthMethodNotAllowedBody)
  {
    if verb != MethodGet then Response(StatusMethodNotAllowed, HealthMethodNotAllowedBody)
    else Response(StatusOK, HealthOKBody)
  }

  /** Create: the application is invoked only for a POST whose body was read and parsed. */
  function SaveProduct(app: Application.App, lib: Lib, req: Request): (r: Handled)
    ensures req.verb != MethodPost ==>
      r == Handled(Response(StatusMethodNotAllowed, MethodNotAllowedBody), None)
    ensures req.verb == MethodPost && req.body.Fail? ==> r == Failed("error to read data body: ", req.body.err)
    ensures req.verb == MethodPost && req.body.Ok? && lib.unmarshal(req.body.value).Fail? ==>
      r == Failed("error to Unmarshal: ", lib.unmarshal(req.body.value).err)
    ensures r.appCall.Some? <==>
      req.verb == MethodPost && req.body.Ok? && lib.unmarshal(req.body.value).Ok?
    ensures r.appCall.Some? ==>
      var p := lib.unmarshal(req.body.value).value;
      var o := app.saveProduct(p);
      && r.appCall == Some(Rpc.Save(p))
      && (o.err.Some? ==>
            r.response == Response(StatusInternalServerError, ErrorBody("error to save product: ", o.err.value)))
      && (o.err.None? ==> r.response == Response(StatusCreated, lib.marshal(o.value)))
    ensures r.response.status == StatusCreated <==>
      r.appCall.Some? && app.saveProduct(r.appCall.value.product).err.None?
  {
    if req.verb != MethodPost then
      Handled(Response(StatusMethodNotAllowed, MethodNotAllowedBody), None)
    else
      match req.body
      case Fail(e) => Failed("error to read data body: ", e)
      case Ok(data) =>
        match lib.unmarshal(data)
        case Fail(e) => Failed("error to Unmarshal: ", e)
        case Ok(p) =>
          var o := app.saveProduct(p);
          if o.err.Some? then
            Handled(Response(StatusInternalServerError, ErrorBody("error to save product: ", o.err.value)),
                    Some(Rpc.Save(p)))
          else
            Handled(Response(StatusCreated, lib.marshal(o.value)), Some(Rpc.Save(p)))
  }

  /** The deactivation text is parsed only when it is non-empty; the result is the text sent on. */
  function Deactivation(lib: Lib, p: RequestProduct): Fallible<string>
  {
    if |p.deactivatedAt| > 0 then lib.parseDeactivation(p.deactivatedAt) else Ok(lib.formatUnset(p))
  }

  /** Update: no method check; a failed read, parse or timestamp parse writes 500 and skips the
      application; otherwise the product with its re-formatted deactivation text is sent on. */
  function UpdateProductByUUID(app: Application.App, lib: Lib, req: Request): (r: Handled)
    ensures req.body.Fail? ==> r == Failed("error to read data body: ", req.body.err)
    ensures req.body.Ok? && lib.unmarshal(req.body.value).Fail? ==>
      r == Failed("error to Unmarshal: ", lib.unmarshal(req.body.value).err)
    ensures req.body.Ok? && lib.unmarshal(req.body.value).Ok? ==>
      var p := lib.unmarshal(req.body.value).value;
      && (|p.deactivatedAt| > 0 && lib.parseDeactivation(p.deactivatedAt).Fail? ==>
            r == Failed("error to update product: ", lib.parseDeactivation(p.deactivatedAt).err))
      && (|p.deactivatedAt| == 0 ==>
            r.appCall == Some(Rpc.UpdateByID(lib.getID("product", req.path),
                                             p.(deactivatedAt := lib.formatUnset(p)))))
      && (|p.deactivatedAt| > 0 && lib.parseDeactivation(p.deactivatedAt).Ok? ==>
            r.appCall == Some(Rpc.UpdateByID(lib.getID("product", req.path),
                                             p.(deactivatedAt := lib.parseDeactivation(p.deactivatedAt).value))))
    ensures r.appCall.Some? <==>
      && req.body.Ok? && lib.unmarshal(req.body.value).Ok?
      && var p := lib.unmarshal(req.body.value).value;
         |p.deactivatedAt| == 0 || lib.parseDeactivation(p.deactivatedAt).Ok?
    ensures r.appCall.Some? ==>
      && r.appCall.value.UpdateByID?
      && var o := app.updateProductByID(r.appCall.value.id, r.appCall.value.product);
      && (o.err.Some? ==>
            r.response == Response(StatusInternalServerError, ErrorBody("error to update product: ", o.err.value)))
      && (o.err.None? ==> r.response == Response(StatusCreated, lib.marshal(o.value)))
  {
    var id := lib.getID("product", req.path);
    match req.body
    case Fail(e) => Failed("error to read data body: ", e)
    case Ok(data) =>
      match lib.unmarshal(data)
      case Fail(e) => Failed("error to Unmarshal: ", e)
      case Ok(p) =>
        match Deactivation(lib, p)
        case Fail(e) => Failed("error to update product: ", e)
        case Ok(text) =>
          var sent := p.(deactivatedAt := text);
          var o := app.updateProductByID(id, sent);
          if o.err.Some? then
            Handled(Response(StatusInternalServerError, ErrorBody("error to update product: ", o.err.value)),
                    Some(Rpc.UpdateByID(id, sent)))
          else
            Handled(Response(StatusCreated, lib.marshal(o.value)), Some(Rpc.UpdateByID(id, sent)))
  }

  /** Delete: 405 without invoking the application unless the method is DELETE; then 500 on an
      application error and 200 `{"status":"OK"}` otherwise. */
  function DeleteProductByUUID(app: Application.App, lib: Lib, req: Request): (r: Handled)
    ensures req.verb != MethodDelete ==>
      r == Handled(Response(StatusMethodNotAllowed, MethodNotAllowedBody), None)
    ensures r.appCall.Some? <==> req.verb == MethodDelete
    ensures req.verb == MethodDelete ==>
      var id := lib.getID("product", req.path);
      && r.appCall == Some(Rpc.DeleteByID(id))
      && (app.deleteProductByID(id).Some? ==>
            r.response == Response(StatusInternalServerError,
                                   ErrorBody("error to delete product: ", app.deleteProductByID(id).value)))
      && (app.deleteProductByID(id).None? ==> r.response == Response(StatusOK, DeletedBody))
  {
    var id := lib.getID("product", req.path);
    if req.verb != MethodDelete then
      Handled(Response(StatusMethodNotAllowed, MethodNotAllowedBody), None)
    else
      match app.deleteProductByID(id)
      case Some(e) =>
        Handled(Response(StatusInternalServerError, ErrorBody("error to delete product: ", e)),
                Some(Rpc.DeleteByID(id)))
      case None => Handled(Response(StatusOK, DeletedBody), Some(Rpc.DeleteByID(id)))
  }

  /** List by category: 500 on an application or marshalling error, 404 on a nil list, and 200
      with the marshalled list otherwise (including an empty, non-nil list). */
  function GetProductByCategory(app: Application.App, lib: Lib, req: Request): (r: Handled)
    ensures r.appCall == Some(Rpc.ListByCategory(req.category))
    ensures var o := app.getProductByCategory(req.category);
      && (o.err.Some? ==>
            r.response == Response(StatusInternalServerError,
                                   ErrorBody("error to get product by category: ", o.err.value)))
      && (o.err.None? && o.value.None? ==> r.response == Response(StatusNotFound, ProductNotFoundBody))
      && (o.err.None? && o.value.Some? ==>
            match lib.marshalList(o.value.value)
            case Fail(e) =>
              r.response == Response(StatusInternalServerError,
                                     ErrorBody("error to get product by category: ", e))
            case Ok(text) => r.response == Response(StatusOK, text))
    ensures r.response.status == StatusNotFound <==>
      app.getProductByCategory(req.category) == Outcome(None, None)
  {
    var call := Some(Rpc.ListByCategory(req.category));
    var o := app.getProductByCategory(req.category);
    if o.err.Some? then
      Handled(Response(StatusInternalServerError, ErrorBody("error to get product by category: ", o.err.value)), call)
    else if o.value.None? then
      Handled(Response(StatusNotFound, ProductNotFoundBody), call)
    else
      match lib.marshalList(o.value.value)
      case Fail(e) =>
        Handled(Response(StatusInternalServerError, ErrorBody("error to get product by category: ", e)), call)
      case Ok(text) => Handled(Response(StatusOK, text), call)
  }

  /** Update ignores the method. */
  lemma UpdateIgnoresMethod(app: Application.App, lib: Lib, req: Request, verb: string)
    ensures UpdateProductByUUID(app, lib, req) == UpdateProductByUUID(app, lib, req.(verb := verb))
  {
  }

  /** Update consults the timestamp parser only for a non-empty deactivation text. */
  lemma UpdateParsesOnlyNonEmpty(app: Application.App, lib: Lib, req: Request, parse: string -> Fallible<string>)
    requires req.body.Ok? && lib.unmarshal(req.body.value).Ok?
    requires |lib.unmarshal(req.body.value).value.deactivatedAt| == 0
    ensures UpdateProductByUUID(app, lib, req) == UpdateProductByUUID(app, lib.(parseDeactivation := parse), req)
  {
  }

  /** On every path that does not invoke the application, the response does not depend on it. */
  lemma ErrorPathsIgnoreApp(app1: Application.App, app2: Application.App, lib: Lib, req: Request)
    ensures SaveProduct(app1, lib, req).appCall.None? ==> SaveProduct(app1, lib, req) == SaveProduct(app2, lib, req)
    ensures UpdateProductByUUID(app1, lib, req).appCall.None? ==>
      UpdateProductByUUID(app1, lib, req) == UpdateProductByUUID(app2, lib, req)
    ensures DeleteProductByUUID(app1, lib, req).appCall.None? ==>
      DeleteProductByUUID(app1, lib, req) == DeleteProductByUUID(app2, lib, req)
    ensures HandlerProduct(app1, lib, req).appCall.None? ==>
      HandlerProduct(app1, lib, req) == HandlerProduct(app2, lib, req)
  {
  }
}
