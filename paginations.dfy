/** Elide's pagination request, whose total-count slot the search layer may fill in. */
module Paginations {

  class Pagination {
    /** Index of the first record of the page. */
    const offset: nat
    /** Largest number of records on the page. */
    const limit: nat
    /** Whether the caller asked for the total number of matches. */
    const generateTotals: bool
    /** The total number of matches, once reported. */
    var pageTotals: nat

    constructor (offset: nat, limit: nat, generateTotals: bool)
      ensures this.offset == offset && this.limit == limit && this.generateTotals == generateTotals
      ensures pageTotals == 0
    {
      this.offset := offset;
      this.limit := limit;
      this.generateTotals := generateTotals;
      pageTotals := 0;
    }

    method SetPageTotals(total: nat)
      modifies this
      ensures pageTotals == total
    {
      pageTotals := total;
    }
  }
}
