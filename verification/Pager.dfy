/** The position in a paged result: what the last response said about the pages after it. */
module Pager {
  import opened Common

  /** The server's paging answer. A paging state is the index of the page it fetches. */
  datatype PagingResponse = HasMorePages(state: nat) | NoMorePages

  datatype Pager = Unpaged | Paged(response: PagingResponse) {
    predicate HasMore() {
      Paged? && response.HasMorePages?
    }

    function PagingState(): (r: Option<nat>)
      ensures r.Some? <==> HasMore()
    {
      match this
      case Paged(HasMorePages(state)) => Some(state)
      case Paged(NoMorePages) => None
      case Unpaged => None
    }
  }
}
