/** The state hook of src/hooks/useLocalStorage.ts as an object: its fields
    are the hook's state variables, and each operation replaces them the way
    the source's `set...` calls do. The storage writes only mirror these
    fields and are not modelled; `loadData` receives what storage held. */
module LocalStorage {
  import opened Wrappers
  import opened Schema
  import opened Seqs
  import opened Balances

  /** What storage holds when `loadData` runs (localStorageService.ts getters). */
  datatype Snapshot = Snapshot(
    user: Option<User>,
    summary: Option<FinancialSummary>,
    transactions: seq<Transaction>,
    groups: seq<Group>,
    friends: seq<Friend>,
    firstTime: bool)

  /** A `Partial<Transaction>`: `None` is a key the patch does not carry;
      for an optional field `Some(None)` is a key set to `undefined`. */
  datatype TransactionPatch = TransactionPatch(
    id: Option<string>,
    kind: Option<TransactionType>,
    description: Option<string>,
    amount: Option<Option<real>>,
    paidBy: Option<Option<string>>,
    splitBetween: Option<Option<seq<string>>>,
    date: Option<Date>,
    status: Option<Option<TransactionStatus>>,
    groupName: Option<Option<string>>)

  /** `{ ...t, ...updates }`. */
  function Merge(t: Transaction, p: TransactionPatch): Transaction
  {
    Transaction(
      p.id.GetOr(t.id), p.kind.GetOr(t.kind), p.description.GetOr(t.description),
      p.amount.GetOr(t.amount), p.paidBy.GetOr(t.paidBy), p.splitBetween.GetOr(t.splitBetween),
      p.date.GetOr(t.date), p.status.GetOr(t.status), p.groupName.GetOr(t.groupName))
  }

  /** `transactions.map(t => t.id === transactionId ? { ...t, ...updates } : t)`. */
  function UpdateById(ts: seq<Transaction>, transactionId: string, updates: TransactionPatch): (r: seq<Transaction>)
    ensures |r| == |ts|
  {
    seq(|ts|, i requires 0 <= i < |ts| => if ts[i].id == transactionId then Merge(ts[i], updates) else ts[i])
  }

  /** The patch reaches exactly the transactions with that id; when no
      transaction has it, the list is unchanged. */
  lemma UpdateByIdEffect(ts: seq<Transaction>, transactionId: string, updates: TransactionPatch)
    ensures var r := UpdateById(ts, transactionId, updates);
      && (forall i :: 0 <= i < |ts| && ts[i].id != transactionId ==> r[i] == ts[i])
      && (forall i :: 0 <= i < |ts| && ts[i].id == transactionId ==> r[i] == Merge(ts[i], updates))
      && ((forall i :: 0 <= i < |ts| ==> ts[i].id != transactionId) ==> r == ts)
  {
  }

  /** `transactions.filter(t => t.id !== transactionId)`. */
  function DeleteById(ts: seq<Transaction>, transactionId: string): (r: seq<Transaction>)
    ensures IsSubsequence(r, ts)
    ensures forall i :: 0 <= i < |r| ==> r[i].id != transactionId
    ensures forall i :: 0 <= i < |ts| && ts[i].id != transactionId ==> ts[i] in r
    ensures forall t :: multiset(r)[t] == if t.id != transactionId then multiset(ts)[t] else 0
  {
    FilterCounts(ts, (t: Transaction) => t.id != transactionId);
    Filter(ts, (t: Transaction) => t.id != transactionId)
  }

  const EmptySummary := FinancialSummary(0.0, 0.0, 0.0, 0.0)

  class Store {
    var user: Option<User>
    var summary: Option<FinancialSummary>
    var transactions: seq<Transaction>
    var groups: seq<Group>
    var friends: seq<Friend>
    var isFirstTime: bool

    /** The hook's initial `useState` values. */
    constructor ()
      ensures user == None && summary == None
      ensures transactions == [] && groups == [] && friends == []
      ensures isFirstTime
    {
      user, summary := None, None;
      transactions, groups, friends := [], [], [];
      isFirstTime := true;
    }

    /** `loadData`: a first-time visitor without a stored user gets `newUser`
        (generated by `UserService.createNewUser`) and a zero summary;
        otherwise the stored snapshot is taken as it is. */
    method LoadData(stored: Snapshot, newUser: User)
      modifies this
      ensures stored.user.None? && stored.firstTime ==>
        && user == Some(newUser) && summary == Some(EmptySummary)
        && transactions == [] && groups == [] && friends == [] && isFirstTime
      ensures !(stored.user.None? && stored.firstTime) ==>
        && user == stored.user && summary == stored.summary
        && transactions == stored.transactions && groups == stored.groups
        && friends == stored.friends && isFirstTime == stored.firstTime
    {
      if stored.user.None? && stored.firstTime {
        user := Some(newUser);
        summary := Some(EmptySummary);
        transactions, groups, friends := [], [], [];
        isFirstTime := true;
      } else {
        user, summary := stored.user, stored.summary;
        transactions, groups, friends := stored.transactions, stored.groups, stored.friends;
        isFirstTime := stored.firstTime;
      }
    }

    /** `clearAllData`: storage is emptied and `loadData` runs again, so the
        store starts over as a first-time visitor. */
    method ClearAllData(newUser: User)
      modifies this
      ensures user == Some(newUser) && summary == Some(EmptySummary)
      ensures transactions == [] && groups == [] && friends == [] && isFirstTime
    {
      LoadData(Snapshot(None, None, [], [], [], true), newUser);
    }

    method UpdateUser(updatedUser: User)
      modifies this`user
      ensures user == Some(updatedUser)
    {
      user := Some(updatedUser);
    }

    method CompleteOnboarding()
      modifies this`isFirstTime
      ensures !isFirstTime
    {
      isFirstTime := false;
    }

    /** Stores a new transaction list and, when a user is loaded, recomputes
        the summary and every group's balance from it; the common tail of
        add, update and delete. */
    method SetTransactionsAndRecompute(updatedTransactions: seq<Transaction>, now: Date)
      modifies this`transactions, this`summary, this`groups
      ensures transactions == updatedTransactions
      ensures user.Some? ==>
        && summary == Some(Summary(updatedTransactions, user.value.name, now))
        && groups == GroupsWithBalances(updatedTransactions, old(groups), user.value.name)
      ensures user.None? ==> summary == old(summary) && groups == old(groups)
    {
      transactions := updatedTransactions;
      if user.Some? {
        var newSummary := CalculateSummary(updatedTransactions, user.value.name, now);
        summary := Some(newSummary);
        var updatedGroups := CalculateGroupBalances(updatedTransactions, groups, user.value.name);
        groups := updatedGroups;
      }
    }

    /** `addTransaction`: the new transaction goes first. */
    method AddTransaction(transaction: Transaction, now: Date)
      modifies this`transactions, this`summary, this`groups
      ensures transactions == [transaction] + old(transactions)
      ensures user.Some? ==>
        && summary == Some(Summary(transactions, user.value.name, now))
        && groups == GroupsWithBalances(transactions, old(groups), user.value.name)
      ensures user.None? ==> summary == old(summary) && groups == old(groups)
    {
      SetTransactionsAndRecompute([transaction] + transactions, now);
    }

    /** `updateTransaction`: the patch is merged into the transactions with
        that id. */
    method UpdateTransaction(transactionId: string, updates: TransactionPatch, now: Date)
      modifies this`transactions, this`summary, this`groups
      ensures transactions == UpdateById(old(transactions), transactionId, updates)
      ensures user.Some? ==>
        && summary == Some(Summary(transactions, user.value.name, now))
        && groups == GroupsWithBalances(transactions, old(groups), user.value.name)
      ensures user.None? ==> summary == old(summary) && groups == old(groups)
    {
      SetTransactionsAndRecompute(UpdateById(transactions, transactionId, updates), now);
    }

    /** `deleteTransaction`: every transaction with that id is removed. */
    method DeleteTransaction(transactionId: string, now: Date)
      modifies this`transactions, this`summary, this`groups
      ensures transactions == DeleteById(old(transactions), transactionId)
      ensures user.Some? ==>
        && summary == Some(Summary(transactions, user.value.name, now))
        && groups == GroupsWithBalances(transactions, old(groups), user.value.name)
      ensures user.None? ==> summary == old(summary) && groups == old(groups)
    {
      SetTransactionsAndRecompute(DeleteById(transactions, transactionId), now);
    }

    /** `addGroup`: appended, with no recomputation. */
    method AddGroup(group: Group)
      modifies this`groups
      ensures groups == old(groups) + [group]
    {
      groups := groups + [group];
    }

    /** `addFriend`: appended, with no recomputation. */
    method AddFriend(friend: Friend)
      modifies this`friends
      ensures friends == old(friends) + [friend]
    {
      friends := friends + [friend];
    }
  }

  /** Recomputing group balances discards whatever `totalBalance` and
      `expenses` the groups carried before: they are derived fields. */
  lemma RecomputeForgetsCachedBalances(ts: seq<Transaction>, earlier: seq<Transaction>, groups: seq<Group>, user: string, earlierUser: string)
    ensures GroupsWithBalances(ts, GroupsWithBalances(earlier, groups, earlierUser), user)
         == GroupsWithBalances(ts, groups, user)
  {
  }
}
