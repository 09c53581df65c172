/** The two search boxes: the transaction search of src/components/History.tsx
    and the group search of src/components/Groups.tsx. Both keep, in order,
    the items some of whose texts contain the lowercased query. */
module SearchFilters {
  import opened Wrappers
  import opened Strings
  import opened Seqs
  import opened Schema

  /** `s` is present and non-empty (truthy) and its lowercase contains `q`. */
  predicate OptionalContains(s: Option<string>, q: string) {
    s.Some? && s.value != "" && Contains(Lower(s.value), q)
  }

  /** Some split member's lowercase contains `q`. */
  predicate SplitContains(split: Option<seq<string>>, q: string) {
    split.Some? && exists m :: m in split.value && Contains(Lower(m), q)
  }

  /** The per-transaction test of History.tsx:68-75, for an already
      lowercased query `q`. */
  predicate TransactionMatches(t: Transaction, q: string) {
    || Contains(Lower(t.description), q)
    || OptionalContains(t.groupName, q)
    || OptionalContains(t.paidBy, q)
    || SplitContains(t.splitBetween, q)
  }

  /** `filteredTransactions` (History.tsx:64-76): the whole list for a
      query that is blank once trimmed, and otherwise the transactions
      matching the lowercased query as typed, untrimmed. */
  function FilterTransactions(transactions: seq<Transaction>, query: string): (r: seq<Transaction>)
    ensures IsSubsequence(r, transactions)
    ensures Trim(query) == [] ==> r == transactions
    ensures Trim(query) != [] ==> forall i :: 0 <= i < |transactions| ==>
      (transactions[i] in r <==> TransactionMatches(transactions[i], Lower(query)))
    ensures Trim(query) != [] ==> forall i :: 0 <= i < |r| ==> TransactionMatches(r[i], Lower(query))
    ensures Trim(query) != [] ==> forall t ::
      multiset(r)[t] == if TransactionMatches(t, Lower(query)) then multiset(transactions)[t] else 0
  {
    if Trim(query) == [] then
      assert IsSubsequence(transactions, transactions) by {
        SubsequenceReflexive(transactions);
      }
      transactions
    else
      var q := Lower(query);
      FilterCounts(transactions, t => TransactionMatches(t, q));
      Filter(transactions, t => TransactionMatches(t, q))
  }

  /** A transaction whose description contains the query is always found,
      whatever its other fields hold. */
  lemma DescriptionMatchIsFound(transactions: seq<Transaction>, query: string, i: int)
    requires 0 <= i < |transactions|
    requires Contains(Lower(transactions[i].description), Lower(query))
    ensures transactions[i] in FilterTransactions(transactions, query)
  {
  }

  /** The per-group test of Groups.tsx:54-57. */
  predicate GroupMatches(g: Group, query: string) {
    || Contains(Lower(g.name), Lower(query))
    || exists m :: m in g.members && Contains(Lower(m), Lower(query))
  }

  /** `filteredGroups` (Groups.tsx:53-58): the groups, in order, whose
      name or some member contains the query, both lowercased; the
      counter of Groups.tsx:167 shows `|r|` of `|groups|`. */
  function FilterGroups(groups: seq<Group>, query: string): (r: seq<Group>)
    ensures |r| <= |groups|
    ensures IsSubsequence(r, groups)
    ensures forall i :: 0 <= i < |groups| ==> (groups[i] in r <==> GroupMatches(groups[i], query))
    ensures forall i :: 0 <= i < |r| ==> GroupMatches(r[i], query)
    ensures forall g :: multiset(r)[g] == if GroupMatches(g, query) then multiset(groups)[g] else 0
  {
    FilterCounts(groups, g => GroupMatches(g, query));
    Filter(groups, g => GroupMatches(g, query))
  }

  /** With an empty search box every group is shown. */
  lemma EmptyQueryKeepsAllGroups(groups: seq<Group>)
    ensures FilterGroups(groups, "") == groups
  {
    forall g | g in groups ensures GroupMatches(g, "") {
      ContainsEmpty(Lower(g.name));
    }
    FilterAll(groups, g => GroupMatches(g, ""));
  }

  /** Typing more of a group's name can only narrow the list: a group found
      by a query is found by every prefix of that query. */
  lemma {:induction false} ShorterQueryKeepsGroup(g: Group, query: string, k: nat)
    requires k <= |query|
    requires GroupMatches(g, query)
    ensures GroupMatches(g, query[..k])
  {
    assert Lower(query[..k]) == Lower(query)[..k];
    if Contains(Lower(g.name), Lower(query)) {
      ContainsPrefix(Lower(g.name), Lower(query), k);
    } else {
      var m :| m in g.members && Contains(Lower(m), Lower(query));
      ContainsPrefix(Lower(m), Lower(query), k);
    }
  }
}
