/**
  The transaction history: a fixed list of transfer records narrowed by a
  case-insensitive search over four of their fields and by a status filter.
 */
module TransactionTable {
  import opened Seqs
  import opened Text

  /** A transfer record; quantity, value and status are display text, as in the data. */
  datatype Transaction = Transaction(
    id: string,
    from: string,
    to: string,
    item: string,
    quantity: string,
    status: string,
    timestamp: string,
    blockchainRef: string,
    value: string)

  /** The search term is found, ignoring ASCII case, in the item, the sender, the receiver or the id. */
  predicate MatchesSearch(t: Transaction, searchTerm: string)
  {
    ContainsIgnoringCase(t.item, searchTerm) ||
    ContainsIgnoringCase(t.from, searchTerm) ||
    ContainsIgnoringCase(t.to, searchTerm) ||
    ContainsIgnoringCase(t.id, searchTerm)
  }

  /** `'all'` passes everything; any other filter value must equal the lowercased status. */
  predicate MatchesStatus(t: Transaction, statusFilter: string)
  {
    statusFilter == "all" || Lower(t.status) == statusFilter
  }

  predicate Kept(t: Transaction, searchTerm: string, statusFilter: string)
  {
    MatchesSearch(t, searchTerm) && MatchesStatus(t, statusFilter)
  }

  function Keeper(searchTerm: string, statusFilter: string): Transaction -> bool
  {
    t => Kept(t, searchTerm, statusFilter)
  }

  function FilteredTransactions(data: seq<Transaction>, searchTerm: string, statusFilter: string): seq<Transaction>
  {
    Filter(data, Keeper(searchTerm, statusFilter))
  }

  /** The "No transactions found" message is rendered. */
  predicate NoResultsShown(data: seq<Transaction>, searchTerm: string, statusFilter: string)
  {
    |FilteredTransactions(data, searchTerm, statusFilter)| == 0
  }

  /** A record is listed iff it matches both the search and the status filter, and the listing keeps the data's order. */
  lemma FilteredMembers(data: seq<Transaction>, searchTerm: string, statusFilter: string, t: Transaction)
    ensures t in FilteredTransactions(data, searchTerm, statusFilter) <==>
              t in data && MatchesSearch(t, searchTerm) && MatchesStatus(t, statusFilter)
    ensures IsSubsequence(FilteredTransactions(data, searchTerm, statusFilter), data)
  {
    var p := Keeper(searchTerm, statusFilter);
    FilterIsSubsequence(data, p);
    if t in data && p(t) {
      var i :| 0 <= i < |data| && data[i] == t;
    }
    var f := Filter(data, p);
    if t in f {
      var i :| 0 <= i < |f| && f[i] == t;
    }
  }

  /** An empty search with the status filter at "all" lists every record, in order. */
  lemma DefaultFiltersShowAll(data: seq<Transaction>)
    ensures FilteredTransactions(data, "", "all") == data
  {
    forall i | 0 <= i < |data| ensures Keeper("", "all")(data[i]) {
      EmptyIsEverywhere(data[i].item);
    }
    FilterAllPass(data, Keeper("", "all"));
  }

  /** The empty-state message appears exactly when no record of the data passes the filters. */
  lemma NoResultsIffNoneMatch(data: seq<Transaction>, searchTerm: string, statusFilter: string)
    ensures NoResultsShown(data, searchTerm, statusFilter) <==>
              forall i :: 0 <= i < |data| ==> !Kept(data[i], searchTerm, statusFilter)
  {
    var p := Keeper(searchTerm, statusFilter);
    if forall i :: 0 <= i < |data| ==> !Kept(data[i], searchTerm, statusFilter) {
      FilterNonePass(data, p);
    } else {
      var i :| 0 <= i < |data| && Kept(data[i], searchTerm, statusFilter);
      assert p(data[i]);
      assert data[i] in Filter(data, p);
    }
  }

  /**
    The status comparison is case-insensitive on the record's side only: the
    record's status is lowercased, so a filter value holding an uppercase
    ASCII letter (other than "all") lets no record through.
   */
  lemma UppercaseFilterMatchesNothing(t: Transaction, statusFilter: string, k: int)
    requires statusFilter != "all"
    requires 0 <= k < |statusFilter| && 'A' <= statusFilter[k] <= 'Z'
    ensures !MatchesStatus(t, statusFilter)
  {
    var low := Lower(t.status);
    if k < |low| {
      assert low[k] == LowerChar(t.status[k]);
      assert low[k] != statusFilter[k];
    }
  }

  /** The three offered status values select the records whose status reads that way in any ASCII case. */
  lemma StatusFilterOptions(t: Transaction)
    ensures MatchesStatus(t, "confirmed") <==> Lower(t.status) == "confirmed"
    ensures t.status == "Confirmed" ==> MatchesStatus(t, "confirmed")
    ensures t.status == "Pending" ==> MatchesStatus(t, "pending") && !MatchesStatus(t, "confirmed")
    ensures t.status == "Failed" ==> MatchesStatus(t, "failed") && !MatchesStatus(t, "pending")
  {
    if t.status == "Confirmed" {
      assert Lower(t.status) == "confirmed";
    }
    if t.status == "Pending" {
      assert Lower(t.status) == "pending";
    }
    if t.status == "Failed" {
      assert Lower(t.status) == "failed";
    }
  }
}
