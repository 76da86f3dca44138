/** The page descriptor of a paginated listing. */
module Utils {

  /** Three unsigned counts: the current page, the number of pages, the page size. */
  datatype Pagination = Pagination(currentPage: nat, totalPages: nat, perPage: nat)
}
