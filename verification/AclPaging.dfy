/** Deleting a sorted list page by page when each next page starts after the last row of the one before. */
module AclPaging {
  import opened TableState

  /**
    How many of the rows are read.  The next page starts after the last row read, which must
    still be there; once it is deleted, no more rows are found.
   */
  function Visited(list: seq<Uri>, kept: set<Uri>, page: nat): (n: nat)
    requires page > 0
    ensures n <= |list|
    decreases |list|
  {
    if |list| <= page then |list|
    else if list[page - 1] in kept then page + Visited(list[page..], kept, page)
    else page
  }

  /** Page number `j` of `n` rows is full and is not the last one. */
  predicate FullPage(n: nat, page: nat, j: nat) {
    0 < j && page * j < n
  }

  /** Every row is read just when the last row of each page but the last is kept. */
  lemma {:induction false} AllVisitedIff(list: seq<Uri>, kept: set<Uri>, page: nat)
    requires page > 0
    ensures Visited(list, kept, page) == |list|
      <==> forall j: nat :: FullPage(|list|, page, j) ==> page * j > 0 && list[page * j - 1] in kept
    decreases |list|
  {
    forall j: nat | j > 0 ensures page * j == page + page * (j - 1) && page * j >= page { Multiple(page, j); }
    if |list| > page {
      assert page * 1 == page;
      assert FullPage(|list|, page, 1);
      var rest := list[page..];
      if list[page - 1] in kept {
        AllVisitedIff(rest, kept, page);
        forall j: nat | FullPage(|rest|, page, j) ensures FullPage(|list|, page, j + 1) {
          Multiple(page, j + 1);
        }
        forall j: nat | FullPage(|list|, page, j) && j > 1 ensures FullPage(|rest|, page, j - 1) { }
      }
    }
  }

  lemma Multiple(page: nat, j: nat)
    requires j > 0
    ensures page * j == page + page * (j - 1) && page * j >= page
  {
  }

  /** With nothing kept, all rows are read just when one page holds them. */
  lemma NoneKeptIff(list: seq<Uri>, page: nat)
    requires page > 0
    ensures Visited(list, {}, page) == |list| <==> |list| <= page
  {
  }
}
