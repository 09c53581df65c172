/** The balance engine of src/hooks/useLocalStorage.ts: `calculateSummary`
    folds the transaction list into the current user's financial summary and
    `calculateGroupBalances` attaches each group's transactions and signed net
    balance. Both are `forEach` loops in the source; here each is a method
    with a loop, proved equal to a left-fold specification function, and the
    properties of those functions are lemmas. */
module Balances {
  import opened Wrappers
  import opened Schema
  import opened Seqs

  /** The three running totals kept by `calculateSummary`. */
  datatype Measure = Owe | Owed | Spending

  /** The transaction falls in the current calendar month of the current year. */
  predicate InMonth(t: Transaction, now: Date) {
    t.date.month == now.month && t.date.year == now.year
  }

  /** What one transaction adds to the running total `m` for `user`
      (useLocalStorage.ts:83-132). */
  function Contribution(m: Measure, t: Transaction, user: string, now: Date): real
  {
    if !HasAmount(t) then 0.0
    else match m
      case Spending =>
        if !InMonth(t, now) then 0.0
        else if InSplit(t, user) then
          if t.paidBy == Some(user) then (if IsSettled(t) then Share(t) else t.amount.value)
          else (if IsSettled(t) then Share(t) else 0.0)
        else if t.paidBy == Some(user) then t.amount.value
        else 0.0
      case Owed =>
        if InSplit(t, user) && t.paidBy == Some(user)
          && t.amount.value - Share(t) > 0.0 && !IsSettled(t)
        then t.amount.value - Share(t)
        else 0.0
      case Owe =>
        if InSplit(t, user) && t.paidBy != Some(user) && !IsSettled(t) then Share(t) else 0.0
  }

  /** The running total `m` after visiting `ts` from first to last. */
  function Total(m: Measure, ts: seq<Transaction>, user: string, now: Date): real
  {
    if ts == [] then 0.0
    else Total(m, ts[..|ts| - 1], user, now) + Contribution(m, ts[|ts| - 1], user, now)
  }

  /** The summary `calculateSummary` returns. */
  function Summary(ts: seq<Transaction>, user: string, now: Date): FinancialSummary
  {
    var owe := Total(Owe, ts, user, now);
    var owed := Total(Owed, ts, user, now);
    FinancialSummary(owed - owe, owe, owed, Total(Spending, ts, user, now))
  }

  /** `calculateSummary(transactionList, currentUser)`, with the clock's
      month and year passed in as `now`. */
  method CalculateSummary(transactionList: seq<Transaction>, currentUser: string, now: Date)
    returns (summary: FinancialSummary)
    ensures summary == Summary(transactionList, currentUser, now)
    ensures summary.totalBalance == summary.youAreOwed - summary.youOwe
  {
    var youOwe, youAreOwed, monthlySpending := 0.0, 0.0, 0.0;
    var i := 0;
    while i < |transactionList|
      invariant 0 <= i <= |transactionList|
      invariant youOwe == Total(Owe, transactionList[..i], currentUser, now)
      invariant youAreOwed == Total(Owed, transactionList[..i], currentUser, now)
      invariant monthlySpending == Total(Spending, transactionList[..i], currentUser, now)
    {
      var transaction := transactionList[i];
      assert transactionList[..i + 1][..i] == transactionList[..i];
      if HasAmount(transaction) {
        var amount := transaction.amount.value;
        if transaction.date.month == now.month && transaction.date.year == now.year {
          if InSplit(transaction, currentUser) {
            var yourShare := amount / (|transaction.splitBetween.value| as real);
            if transaction.paidBy == Some(currentUser) {
              if transaction.status == Some(Settled) {
                monthlySpending := monthlySpending + yourShare;
              } else {
                monthlySpending := monthlySpending + amount;
              }
            } else if transaction.status == Some(Settled) {
              monthlySpending := monthlySpending + yourShare;
            }
          } else if transaction.paidBy == Some(currentUser) {
            monthlySpending := monthlySpending + amount;
          }
        }
        if InSplit(transaction, currentUser) {
          var splitAmount := amount / (|transaction.splitBetween.value| as real);
          if transaction.paidBy == Some(currentUser) {
            var othersShare := amount - splitAmount;
            if othersShare > 0.0 && transaction.status != Some(Settled) {
              youAreOwed := youAreOwed + othersShare;
            }
          } else if transaction.status != Some(Settled) {
            youOwe := youOwe + splitAmount;
          }
        }
      }
      i := i + 1;
    }
    assert transactionList[..|transactionList|] == transactionList;
    summary := FinancialSummary(youAreOwed - youOwe, youOwe, youAreOwed, monthlySpending);
  }

  /** Every running total is additive over concatenated transaction lists,
      so the order of the list does not matter and one transaction's effect
      can be read off on its own. */
  lemma {:induction false} TotalConcat(m: Measure, a: seq<Transaction>, b: seq<Transaction>, user: string, now: Date)
    ensures Total(m, a + b, user, now) == Total(m, a, user, now) + Total(m, b, user, now)
    decreases |b|
  {
    if b == [] {
      assert a + b == a;
    } else {
      var b' := b[..|b| - 1];
      assert (a + b)[..|a + b| - 1] == a + b';
      TotalConcat(m, a, b', user, now);
    }
  }

  /** The effect on the summary of putting one transaction in front of the
      list, case by case as the source's branches decide it
      (useLocalStorage.ts:83-132). */
  lemma AddedTransactionEffect(t: Transaction, ts: seq<Transaction>, user: string, now: Date)
    ensures var before, after := Summary(ts, user, now), Summary([t] + ts, user, now);
      && after.totalBalance == after.youAreOwed - after.youOwe
      // an absent or zero amount changes nothing
      && (!HasAmount(t) ==> after == before)
      // balances move only for unsettled transactions split with the user
      && (!InSplit(t, user) || IsSettled(t) ==>
            after.youOwe == before.youOwe && after.youAreOwed == before.youAreOwed)
      // the user paid: the others' share is owed to the user
      && (HasAmount(t) && InSplit(t, user) && !IsSettled(t) && t.paidBy == Some(user) ==>
            after.youOwe == before.youOwe
            && after.youAreOwed == before.youAreOwed
                 + (if t.amount.value - Share(t) > 0.0 then t.amount.value - Share(t) else 0.0))
      // someone else paid: the user owes one share
      && (HasAmount(t) && InSplit(t, user) && !IsSettled(t) && t.paidBy != Some(user) ==>
            after.youAreOwed == before.youAreOwed
            && after.youOwe == before.youOwe + Share(t))
      // monthly spending counts only this month's transactions
      && (!InMonth(t, now) ==> after.monthlySpending == before.monthlySpending)
      && (HasAmount(t) && InMonth(t, now) && InSplit(t, user) && IsSettled(t) ==>
            after.monthlySpending == before.monthlySpending + Share(t))
      && (HasAmount(t) && InMonth(t, now) && InSplit(t, user) && !IsSettled(t) ==>
            after.monthlySpending == before.monthlySpending
              + (if t.paidBy == Some(user) then t.amount.value else 0.0))
      && (HasAmount(t) && InMonth(t, now) && !InSplit(t, user) ==>
            after.monthlySpending == before.monthlySpending
              + (if t.paidBy == Some(user) then t.amount.value else 0.0))
  {
    assert [t][..0] == [];
    TotalConcat(Owe, [t], ts, user, now);
    TotalConcat(Owed, [t], ts, user, now);
    TotalConcat(Spending, [t], ts, user, now);
  }

  /** A transaction with an absent or zero amount can be inserted anywhere
      without changing the summary. */
  lemma FalsyAmountIgnored(a: seq<Transaction>, t: Transaction, b: seq<Transaction>, user: string, now: Date)
    requires !HasAmount(t)
    ensures Summary(a + [t] + b, user, now) == Summary(a + b, user, now)
  {
    forall m: Measure ensures Total(m, a + [t] + b, user, now) == Total(m, a + b, user, now) {
      TotalConcat(m, a + [t], b, user, now);
      TotalConcat(m, a, [t], user, now);
      TotalConcat(m, a, b, user, now);
      assert [t][..0] == [];
    }
  }

  /** With non-negative amounts no total ever goes negative. */
  lemma {:induction false} SummaryNonNegative(ts: seq<Transaction>, user: string, now: Date)
    requires forall i :: 0 <= i < |ts| && ts[i].amount.Some? ==> ts[i].amount.value >= 0.0
    ensures var s := Summary(ts, user, now);
      s.youOwe >= 0.0 && s.youAreOwed >= 0.0 && s.monthlySpending >= 0.0
  {
    if ts != [] {
      var init := ts[..|ts| - 1];
      SummaryNonNegative(init, user, now);
      var t := ts[|ts| - 1];
      if HasAmount(t) && t.splitBetween.Some? && |t.splitBetween.value| > 0 {
        assert Share(t) >= 0.0;
      }
    }
  }

  /** `transactionList.filter(t => t.groupName === group.name)`. */
  function GroupTransactions(ts: seq<Transaction>, name: string): seq<Transaction>
  {
    Filter(ts, (t: Transaction) => t.groupName == Some(name))
  }

  /** A group's transactions are exactly the ones carrying its name, each as
      many times as it occurs in the whole list. */
  lemma GroupTransactionsCounts(ts: seq<Transaction>, name: string)
    ensures forall t :: multiset(GroupTransactions(ts, name))[t] == if t.groupName == Some(name) then multiset(ts)[t] else 0
  {
    FilterCounts(ts, (t: Transaction) => t.groupName == Some(name));
  }

  /** What one transaction adds to a group's `userBalance`
      (useLocalStorage.ts:151-166). */
  function GroupContribution(t: Transaction, user: string): real
  {
    if !HasAmount(t) || !InSplit(t, user) then 0.0
    else if t.paidBy == Some(user) then
      (if t.amount.value - Share(t) > 0.0 && !IsSettled(t) then t.amount.value - Share(t) else 0.0)
    else if !IsSettled(t) then -Share(t)
    else 0.0
  }

  /** The group's `userBalance` after visiting its transactions in order. */
  function GroupBalance(xs: seq<Transaction>, user: string): real
  {
    if xs == [] then 0.0
    else GroupBalance(xs[..|xs| - 1], user) + GroupContribution(xs[|xs| - 1], user)
  }

  /** One group as `calculateGroupBalances` returns it. */
  function WithBalance(g: Group, ts: seq<Transaction>, user: string): Group
  {
    var xs := GroupTransactions(ts, g.name);
    g.(totalBalance := GroupBalance(xs, user), expenses := Some(xs))
  }

  /** The group list `calculateGroupBalances` returns: one group per input
      group, in order, with only `totalBalance` and `expenses` replaced;
      `expenses` is exactly the transactions carrying the group's name, in
      list order. */
  function GroupsWithBalances(ts: seq<Transaction>, groups: seq<Group>, user: string): (r: seq<Group>)
    ensures |r| == |groups|
    ensures forall i :: 0 <= i < |r| ==>
      r[i] == groups[i].(totalBalance := r[i].totalBalance, expenses := r[i].expenses)
    ensures forall i :: 0 <= i < |r| ==>
      && r[i].expenses.Some?
      && IsSubsequence(r[i].expenses.value, ts)
      && (forall k :: 0 <= k < |r[i].expenses.value| ==> r[i].expenses.value[k].groupName == Some(groups[i].name))
      && (forall k :: 0 <= k < |ts| && ts[k].groupName == Some(groups[i].name) ==> ts[k] in r[i].expenses.value)
      && (forall t :: multiset(r[i].expenses.value)[t] == if t.groupName == Some(groups[i].name) then multiset(ts)[t] else 0)
  {
    var r := seq(|groups|, i requires 0 <= i < |groups| => WithBalance(groups[i], ts, user));
    assert forall i :: 0 <= i < |r| ==> forall t ::
      multiset(r[i].expenses.value)[t] == if t.groupName == Some(groups[i].name) then multiset(ts)[t] else 0
    by {
      forall i | 0 <= i < |r| {
        GroupTransactionsCounts(ts, groups[i].name);
      }
    }
    r
  }

  /** `calculateGroupBalances(transactionList, groupsList, currentUser)`:
      the `map` over the groups. */
  method CalculateGroupBalances(transactionList: seq<Transaction>, groupsList: seq<Group>, currentUser: string)
    returns (updated: seq<Group>)
    ensures updated == GroupsWithBalances(transactionList, groupsList, currentUser)
  {
    updated := [];
    var k := 0;
    while k < |groupsList|
      invariant 0 <= k <= |groupsList|
      invariant |updated| == k
      invariant forall j :: 0 <= j < k ==> updated[j] == WithBalance(groupsList[j], transactionList, currentUser)
    {
      var group := groupsList[k];
      var groupTransactions := GroupTransactions(transactionList, group.name);
      var userBalance := AccumulateGroupBalance(groupTransactions, currentUser);
      updated := updated + [group.(totalBalance := userBalance, expenses := Some(groupTransactions))];
      k := k + 1;
    }
    ghost var spec := GroupsWithBalances(transactionList, groupsList, currentUser);
    assert forall j :: 0 <= j < |spec| ==> spec[j] == WithBalance(groupsList[j], transactionList, currentUser);
  }

  /** The `forEach` over one group's transactions that accumulates
      `userBalance` (useLocalStorage.ts:151-167). */
  method AccumulateGroupBalance(groupTransactions: seq<Transaction>, currentUser: string)
    returns (userBalance: real)
    ensures userBalance == GroupBalance(groupTransactions, currentUser)
  {
    userBalance := 0.0;
    var i := 0;
    while i < |groupTransactions|
      invariant 0 <= i <= |groupTransactions|
      invariant userBalance == GroupBalance(groupTransactions[..i], currentUser)
    {
      var transaction := groupTransactions[i];
      assert groupTransactions[..i + 1][..i] == groupTransactions[..i];
      if HasAmount(transaction) && InSplit(transaction, currentUser) {
        var amount := transaction.amount.value;
        var splitAmount := amount / (|transaction.splitBetween.value| as real);
        if transaction.paidBy == Some(currentUser) {
          var othersShare := amount - splitAmount;
          if othersShare > 0.0 && transaction.status != Some(Settled) {
            userBalance := userBalance + othersShare;
          }
        } else if transaction.status != Some(Settled) {
          userBalance := userBalance - splitAmount;
        }
      }
      i := i + 1;
    }
    assert groupTransactions[..|groupTransactions|] == groupTransactions;
  }

  /** A group's balance is the net summary balance of its own transactions:
      the per-group and the overall computations agree. */
  lemma {:induction false} GroupBalanceIsNetSummary(xs: seq<Transaction>, user: string, now: Date)
    ensures GroupBalance(xs, user) == Summary(xs, user, now).totalBalance
  {
    if xs != [] {
      GroupBalanceIsNetSummary(xs[..|xs| - 1], user, now);
    }
  }

  /** A group whose transactions are all settled has balance zero. */
  lemma {:induction false} SettledGroupBalanceIsZero(xs: seq<Transaction>, user: string)
    requires forall i :: 0 <= i < |xs| ==> IsSettled(xs[i])
    ensures GroupBalance(xs, user) == 0.0
  {
    if xs != [] {
      SettledGroupBalanceIsZero(xs[..|xs| - 1], user);
    }
  }
}
