/** The five-operation product interface shared by the "pub" client and the worker client. */
module Rpc {
  import opened Values
  import opened Dto

  /** One invocation of the product interface together with its arguments. */
  datatype Call =
    | GetByID(uuid: string)
    | Save(product: RequestProduct)
    | UpdateByID(id: string, product: RequestProduct)
    | ListByCategory(category: string)
    | DeleteByID(id: string)

  /** A client of the product interface. Its behaviour is left entirely open: every operation
      may answer with any combination of a value (or nil) and an error (or nil). */
  datatype Client = Client(
    getProductByID: string -> Outcome<OutputProduct>,
    saveProduct: RequestProduct -> Outcome<OutputProduct>,
    updateProductByID: (string, RequestProduct) -> Outcome<OutputProduct>,
    getProductByCategory: string -> Outcome<seq<OutputProduct>>,
    deleteProductByID: string -> Option<Error>)
}
