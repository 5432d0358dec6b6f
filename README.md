# Product gateway: orchestration layer and HTTP outcome mapping

This project models the two pieces of decision logic in an HTTP-to-RPC gateway for a "product"
resource, written in Go.

- **Orchestration layer** (`internal/core/application/app.go`). The application holds two clients
  with the same five-operation interface. These are the "pub" client (`productRPC`) and the worker
  client (`productWorkerRPC`). Each operation fires the pub client with its own arguments and
  discards the answer. It then awaits the worker client and turns the worker's `(value, error)`
  pair into its own result:
  - an error passes through unchanged;
  - a nil product on save or update becomes the error "is not possible to save product because
    it's null";
  - a nil product or nil list on a read is "not found", returned as `(nil, nil)`;
  - a product is copied field by field. The read paths fill `DeactivatedAt` from `CreatedAt`; the
    write paths copy `DeactivatedAt` itself.
- **HTTP handler** (`internal/handler/http/handler.go`). A route table selects one of four
  sub-handlers, and a failed match writes 404. Each sub-handler takes early returns and writes
  exactly one status and one body.

The model's modules:

- `Values`: the Go value shapes the model uses.
  - `Option` is a nil-able pointer or slice.
  - `Error` is a Go `error`, reduced to its text.
  - `Outcome` is the `(T, error)` pair. Both halves are independent, so all four combinations can
    occur.
  - `Fallible` is a library call's result.
- `Dto`: the product records.
- `Rpc`: the product interface. `Call` is one invocation with its arguments. `Client` is a record
  of five total functions. A client is a parameter, so every combination of value and error is a
  possible answer.
- `Application`: the five operations, as pure functions over `Backends` (the two clients). Each
  returns a `Run`: the call sent to the pub client, the call awaited on the worker, and the result.
  The pub client is never applied, so no result can depend on it. The by-category list is built
  twice:
  - by the method `GetProductByCategory`, with the source's append loop;
  - by the function `ByCategory`, which specifies that method.
- `Handler`: each handler is a function from three inputs to a `Handled` value. The inputs are the
  request, the library outcomes (`Lib`) and the application interface (`App`). `Handled` holds the
  response, a status and a body, and the application call made, if any. A handler with no
  application call cannot have consulted the application.
- `Gateway`: the handler wired to the application over two abstract, independent clients, for
  properties that span both layers.

Behaviour of the code worth noting:

- A non-nil but empty list from the worker is returned as a non-nil empty list. The handler
  then answers 200 with the marshalled list, not 404. Only a nil list gives 404
  (`Gateway.EmptyCategoryIsOK`, `Gateway.NilCategoryIsNotFound`).
- Update's nil-product error has the same text as save's.
- The route table has no get-by-id route. `Application.GetProductByID` is modelled, but no handler
  calls it.
- Update has no method check, so any method routed to it is served (`Handler.UpdateIgnoresMethod`).

## Model

| member | source | states |
|---|---|---|
| `Application.GetProductByID` | internal/core/application/app.go:34-66 | the pub and worker calls both carry the uuid; the worker's error comes back unchanged, including no error; a product is returned iff the worker gave one without an error; a nil product with no error is `(nil, nil)`; the returned product has `DeactivatedAt` equal to the worker's `CreatedAt` and every other field equal to the worker's |
| `Application.WriteResult` | internal/core/application/app.go:77-99 | the shared tail of the write paths: an error passes through; a nil product with no error becomes the "because it's null" error; otherwise the worker's product is returned with all eight fields unchanged; exactly one of a product and an error is returned |
| `Application.SaveProduct` | internal/core/application/app.go:68-100 | both clients receive the same product; a worker error gives `(nil, err)`; nil with no error gives `(nil, "is not possible to save product because it's null")`; success returns the worker's product with all eight fields equal, including `DeactivatedAt`; exactly one of product and error is present |
| `Application.UpdateProductByID` | internal/core/application/app.go:140-173 | both clients receive the same id and product; the same outcome mapping as save, including the same "because it's null" error for a nil product |
| `Application.ReadCopies` | internal/core/application/app.go:122-134 | the list copy keeps the length and order; element i equals input i with `DeactivatedAt := CreatedAt` |
| `Application.ByCategory` | internal/core/application/app.go:102-138 | both clients receive the category; the worker's error comes back unchanged; a list is returned iff the worker gave one without an error; a nil list is `(nil, nil)`; a non-nil list, even an empty one, comes back non-nil with the same length and order, element i being input i with `DeactivatedAt := CreatedAt` |
| `Application.NewApplication` | internal/core/application/app.go:26-32 | each entry of the application interface is the result of the matching operation over the two clients; the pub client is carried but never applied |
| `Application.GetProductByCategory` | internal/core/application/app.go:102-138 | the append loop yields exactly the calls and the result that `ByCategory` specifies; after i steps the list built is the copy of the first i worker items |
| `Application.DeleteProductByID` | internal/core/application/app.go:175-182 | both clients receive the id; the result is exactly the worker's error |
| `Application.PubOutcomeIgnored` | internal/core/application/app.go:34-182 | swapping the pub client for any other leaves every operation's calls and result unchanged |
| `Application.ReadCopyChangesOnlyDeactivation` | internal/core/application/app.go:53-62 | the read-path copy equals the write-path copy except that `DeactivatedAt` is `CreatedAt`; it leaves a product unchanged iff the two timestamps already agree; it is idempotent |
| `Application.ReadCopiesAppend` | internal/core/application/app.go:122-134 | copying a concatenation is concatenating the copies; the append loop uses it to extend its invariant by one element per step |
| `Handler.RoutesShape` | internal/handler/http/handler.go:30-35 | the route table has exactly four keys: get and post on `hermes_foods/product`, put and delete on `hermes_foods/product/{id}` |
| `Handler.RouteMethodsLowerCase` | internal/handler/http/handler.go:30-35 | the method part of every key is lower-case and is, key by key, get, post, put and delete |
| `Handler.MethodOfKey` | internal/handler/http/handler.go:30-35 | the method part of a key `<method> <pattern>` is that method |
| `Handler.RouteNotFoundBodyNamesRequest` | internal/handler/http/handler.go:44-45 | the 404 body contains the request's method and path verbatim, at fixed offsets after `{"error": "route ` |
| `Handler.Dispatch` | internal/handler/http/handler.go:37-41 | each route is bound to its sub-handler (category to getProductByCategory, save to saveProduct, update to UpdateProductByUUID, delete to deleteProductByUUID) and yields exactly that handler's outcome; any application call it makes belongs to its route |
| `Handler.HandlerProduct` | internal/handler/http/handler.go:28-46 | no match: 404 with the route-not-found body and no application call; a match: exactly the matched sub-handler's outcome; any application call belongs to the matched route |
| `Handler.HealthCheck` | internal/handler/http/handler.go:48-57 | status 200 iff the method is GET, with `{"status": "OK"}`; otherwise 405 `{"error": "method not allowed"}` |
| `Handler.SaveProduct` | internal/handler/http/handler.go:59-94 | non-POST: 405 and no application call; a failed read or unmarshal: 500 with its message and no application call; the application is called iff the method is POST and read and unmarshal succeeded, with the parsed product; an application error: 500 `error to save product: <err>`; otherwise 201 with the marshalled result; 201 iff the call was made and returned no error |
| `Handler.UpdateProductByUUID` | internal/handler/http/handler.go:96-139 | no method check; a failed read or unmarshal gives 500 without an application call; the deactivation text is parsed only when non-empty, and a parse failure gives 500 without an application call; the application is called iff these steps succeed, with the id from `getID("product", path)` and the product whose deactivation text is the re-formatted one; an application error gives 500; success gives 201 with the marshalled result |
| `Handler.DeleteProductByUUID` | internal/handler/http/handler.go:141-159 | non-DELETE: 405 and no application call; the application is called iff the method is DELETE, with the id from `getID`; its error gives 500 `error to delete product: <err>`; success gives 200 `{"status":"OK"}` |
| `Handler.GetProductByCategory` | internal/handler/http/handler.go:161-189 | the application is always called with the query category; an error gives 500; a nil list gives 404 `{"error": "product not found"}`; a failed marshal gives 500; otherwise 200 with the marshalled list; 404 iff the application returned `(nil, nil)` |
| `Handler.UpdateIgnoresMethod` | internal/handler/http/handler.go:96-139 | the update handler's outcome does not depend on the request method |
| `Handler.UpdateParsesOnlyNonEmpty` | internal/handler/http/handler.go:116-125 | with an empty deactivation text the timestamp parser is not consulted: any other parser gives the same outcome |
| `Handler.ErrorPathsIgnoreApp` | internal/handler/http/handler.go:28-159 | on every path of save, update, delete and the dispatcher that makes no application call, the outcome is the same for any application |
| `Gateway.Serve` | cmd/main.go:32-37 | the product endpoint over the application built from the two clients: no match gives 404 with the route-not-found body and no application call; any application call belongs to the matched route |
| `Gateway.SecondaryNeverObservable` | internal/core/application/app.go:39-41 | with independent backends, replacing the pub client by any other, one that always fails included, changes no status and no body |
| `Gateway.SaveNullProductIsServerError` | internal/handler/http/handler.go:84-90 | a worker that answers a routed, parsed create with neither product nor error yields 500 `error to save product: is not possible to save product because it's null` |
| `Gateway.NilCategoryIsNotFound` | internal/handler/http/handler.go:173-177 | a nil list from the worker yields 404 `{"error": "product not found"}` |
| `Gateway.EmptyCategoryIsOK` | internal/core/application/app.go:117-137 | an empty non-nil list from the worker yields 200 with the marshalled empty list, not 404 |

## Left out

- The goroutine launches of the pub calls are left out. The model keeps only the call each one
  sends, in `Run.published`. The pub client's answer is never applied, so concurrency, races and
  leaked calls are not modelled.
- `internal/adapters/rpc/product_worker.go` is left out: gRPC connection setup and release, the
  remote calls, and the float32/float64 price conversion, which is floating point. The clients
  stay fully abstract, so nil results are covered too, although this adapter never returns a nil
  product or a nil list on success.
- `internal/core/domain/rpc/rpc.go` declares only the two identical interfaces. It appears only as
  the signature of `Rpc.Client`.
- `cmd/main.go` is wiring (environment variables, server mux, `ListenAndServe`). It is left out,
  apart from `Gateway.Serve` composing the handler with the application.
- Gateway.SecondaryNeverObservable: holds only under two assumptions the model builds in. First,
  the backends are independent: the worker's answer does not depend on the pub call, whereas
  cmd/main.go:28-30 points both clients at the same host and port, so a pub create or delete can
  change what the worker answers. Second, pub calls do not panic: the goroutines at app.go:39, 73,
  108, 145 and 178 have no `recover`, so a panicking pub call would end the process.
- The router, `getID`, setting the time from a string with `Format`, `MarshalString`, and JSON
  marshalling and unmarshalling are uninterpreted fields of `Handler.Lib`. Reading the body is an
  outcome carried in the request. The `category` query lookup is passed in already parsed, as
  `Request.category`.
- `Middleware` and `http.StripPrefix` (cmd/main.go:36-37) are not modelled.
- Handler.HandlerProduct: the router is modelled as returning a route of the table or nothing,
  not an arbitrary handler function.
- Logging, the message identifier and `setMessageIDCtx` are left out. The context assignment has a
  value receiver, so it has no observable effect.
- The entity package (`dto`, including `RequestProduct.Product()`) is not part of this model. The
  record fields follow their uses in app.go and product_worker.go. The entity's deactivation time
  is visible only through `Lib.parseDeactivation` and `Lib.formatUnset`. The round trip of a
  formatted timestamp is a property of that library and is not stated.
- Prices are `real` values that are only copied, never computed with.
- Byte buffers and bodies are strings. A Go error is identified by its text.
- A non-empty product identifier is not modelled, because the code checks for it nowhere.
