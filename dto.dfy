/** The transfer objects exchanged between the HTTP handler, the application and the RPC clients.
    Field names follow their use in app.go and product_worker.go. */
module Dto {

  /** A product as a client sees it. Timestamps are kept as the text the backend sends. */
  datatype OutputProduct = OutputProduct(
    uuid: string,
    name: string,
    category: string,
    image: string,
    description: string,
    price: real,
    createdAt: string,
    deactivatedAt: string)

  /** The fields a client sends on create and update; the deactivation time arrives as text. */
  datatype RequestProduct = RequestProduct(
    name: string,
    category: string,
    image: string,
    description: string,
    price: real,
    createdAt: string,
    deactivatedAt: string)
}
