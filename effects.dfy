/** What a page asks of the world outside it: calls into the cart context,
    whose implementation is not part of this model, and navigation targets for
    the router. A page keeps the calls it makes, in order, so the model states
    what is asked of the cart without assuming how the cart answers. */
module Effects {
  import opened Catalog

  /** One call into the cart context. */
  datatype CartCall = AddToCart(product: Product) | ClearCart

  /** Where a page tells the router to go. */
  datatype Route =
    | HomePage
    | SearchAll
    | SearchCategory(category: string)
    | SearchQuery(query: string)
    | OrderConfirmation
}
