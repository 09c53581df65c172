/** `calculateUserStatistics` of src/utils/profileStats.ts: the figures on
    the profile page, computed from the transactions the user takes part in.
    The two `forEach` loops that fill a `Map` per group name are methods; a
    `Map` is a list of entries in insertion order, which is the order
    `Array.from(map.entries())` yields. The clock's month and year are the
    parameter `now`. */
module ProfileStats {
  import opened Wrappers
  import opened Schema
  import opened Seqs
  import opened Balances

  datatype Trend = Up | Down | Same

  /** A `Map` entry, and the `{ name, transactionCount }` / `{ name, amount }`
      records built from one. */
  datatype NamedTotal = NamedTotal(name: string, value: real)

  datatype LargestTransaction = LargestTransaction(description: string, amount: real, date: Date)

  datatype MonthlyStats = MonthlyStats(currentMonth: real, lastMonth: real, trend: Trend)

  datatype UserStatistics = UserStatistics(
    totalGroups: nat,
    totalTransactions: nat,
    totalAmountSpent: real,
    mostActiveGroup: Option<NamedTotal>,
    mostSpentInGroup: Option<NamedTotal>,
    averageTransactionAmount: real,
    largestTransaction: Option<LargestTransaction>,
    groupsAsAdmin: nat,
    settledTransactions: nat,
    pendingTransactions: nat,
    monthlyStats: MonthlyStats)

  /** The user paid the transaction or is in its split (profileStats.ts:49-51). */
  predicate Involves(t: Transaction, userName: string) {
    t.paidBy == Some(userName) || InSplit(t, userName)
  }

  function UserTransactions(ts: seq<Transaction>, userName: string): seq<Transaction> {
    Filter(ts, (t: Transaction) => Involves(t, userName))
  }

  /** `t.groupName` is truthy: present and not the empty string. */
  predicate HasGroupName(t: Transaction) {
    t.groupName.Some? && t.groupName.value != ""
  }

  /** The sum of the amounts, a missing amount counting 0 (`reduce` with
      `sum + (t.amount || 0)`; exact addition does not depend on the order). */
  function SumAmounts(ts: seq<Transaction>): real {
    if ts == [] then 0.0 else ts[0].amount.GetOr(0.0) + SumAmounts(ts[1..])
  }

  /** The two per-group `Map`s: `groupActivity` counts every user
      transaction with a group name; `groupSpending` sums the amounts the
      user paid in transactions with a group name and an amount. */
  datatype Tallied = Activity | PaidIn

  predicate Counted(kind: Tallied, t: Transaction, userName: string) {
    match kind
    case Activity => HasGroupName(t)
    case PaidIn => t.paidBy == Some(userName) && HasGroupName(t) && HasAmount(t)
  }

  function Weight(kind: Tallied, t: Transaction): real {
    match kind
    case Activity => 1.0
    case PaidIn => t.amount.GetOr(0.0)
  }

  /** Reference definition of one group's figure: the weights of the counted
      transactions carrying that group name. */
  function GroupTotal(kind: Tallied, ts: seq<Transaction>, userName: string, key: string): real {
    if ts == [] then 0.0
    else
      var t := ts[|ts| - 1];
      GroupTotal(kind, ts[..|ts| - 1], userName, key)
        + (if Counted(kind, t, userName) && t.groupName == Some(key) then Weight(kind, t) else 0.0)
  }

  /** A group name no counted transaction carries totals zero. */
  lemma {:induction false} GroupTotalOfAbsentKey(kind: Tallied, ts: seq<Transaction>, userName: string, key: string)
    requires forall i :: 0 <= i < |ts| && Counted(kind, ts[i], userName) ==> ts[i].groupName != Some(key)
    ensures GroupTotal(kind, ts, userName, key) == 0.0
  {
    if ts != [] {
      GroupTotalOfAbsentKey(kind, ts[..|ts| - 1], userName, key);
    }
  }

  function Keys(es: seq<NamedTotal>): (r: seq<string>)
    ensures |r| == |es| && forall j :: 0 <= j < |es| ==> r[j] == es[j].name
  {
    seq(|es|, j requires 0 <= j < |es| => es[j].name)
  }

  function Values(es: seq<NamedTotal>): (r: seq<real>)
    ensures |r| == |es| && forall j :: 0 <= j < |es| ==> r[j] == es[j].value
  {
    seq(|es|, j requires 0 <= j < |es| => es[j].value)
  }

  /** `map.set(key, (map.get(key) || 0) + w)`: an existing entry keeps its
      place and grows by `w`; a new key is appended. */
  function Bump(es: seq<NamedTotal>, key: string, w: real): (r: seq<NamedTotal>)
    requires NoDuplicates(Keys(es))
    ensures |r| == if key in Keys(es) then |es| else |es| + 1
    ensures NoDuplicates(Keys(r))
    ensures key in Keys(r)
    ensures forall j :: 0 <= j < |es| ==> r[j].name == es[j].name
    ensures key !in Keys(es) ==> r[|es|].name == key
    ensures forall j :: 0 <= j < |r| ==>
      r[j].value == (if j < |es| then es[j].value else 0.0) + (if r[j].name == key then w else 0.0)
  {
    if key in Keys(es) then
      var k := IndexOf(Keys(es), key);
      var r := es[k := NamedTotal(key, es[k].value + w)];
      assert Keys(r)[k] == key;
      r
    else
      var r := es + [NamedTotal(key, w)];
      assert Keys(r)[|es|] == key;
      r
  }

  /** The `Map` after the `forEach` over `ts`: one entry per group name that
      occurs in a counted transaction, each holding that group's total. */
  function Tally(kind: Tallied, ts: seq<Transaction>, userName: string): (r: seq<NamedTotal>)
    ensures NoDuplicates(Keys(r))
    ensures forall j :: 0 <= j < |r| ==> r[j].value == GroupTotal(kind, ts, userName, r[j].name)
    ensures forall j :: 0 <= j < |r| ==>
      exists i :: 0 <= i < |ts| && Counted(kind, ts[i], userName) && ts[i].groupName == Some(r[j].name)
    ensures forall i :: 0 <= i < |ts| && Counted(kind, ts[i], userName) ==> ts[i].groupName.value in Keys(r)
  {
    if ts == [] then []
    else
      var init := ts[..|ts| - 1];
      var t := ts[|ts| - 1];
      var prev := Tally(kind, init, userName);
      var r := StepTally(kind, t, userName, prev);
      assert NoDuplicates(Keys(prev));
      assert forall j :: 0 <= j < |prev| ==> prev[j].value == GroupTotal(kind, init, userName, prev[j].name);
      assert forall j :: 0 <= j < |prev| ==>
         exists i :: 0 <= i < |init| && Counted(kind, init[i], userName) && init[i].groupName == Some(prev[j].name);
      assert forall i :: 0 <= i < |init| && Counted(kind, init[i], userName) ==> init[i].groupName.value in Keys(prev);
      assert IsTally(kind, init, userName, prev);
      assert IsTally(kind, ts, userName, r) by {
        TallyValues(kind, ts, userName, prev, r);
        forall j | 0 <= j < |r|
          ensures exists i :: 0 <= i < |ts| && Counted(kind, ts[i], userName) && ts[i].groupName == Some(r[j].name)
        {
          TallyWitness(kind, ts, userName, prev, r, j);
        }
        TallyCoverage(kind, ts, userName, prev, r);
      }
      r
  }

  /** The four promises of `Tally`, gathered for the inductive step. */
  predicate IsTally(kind: Tallied, ts: seq<Transaction>, userName: string, r: seq<NamedTotal>) {
    && NoDuplicates(Keys(r))
    && (forall j :: 0 <= j < |r| ==> r[j].value == GroupTotal(kind, ts, userName, r[j].name))
    && (forall j :: 0 <= j < |r| ==>
         exists i :: 0 <= i < |ts| && Counted(kind, ts[i], userName) && ts[i].groupName == Some(r[j].name))
    && (forall i :: 0 <= i < |ts| && Counted(kind, ts[i], userName) ==> ts[i].groupName.value in Keys(r))
  }

  /** The tally after one more transaction: its group bumped when it counts. */
  function StepTally(kind: Tallied, t: Transaction, userName: string, prev: seq<NamedTotal>): (r: seq<NamedTotal>)
    requires NoDuplicates(Keys(prev))
  {
    if Counted(kind, t, userName) then Bump(prev, t.groupName.value, Weight(kind, t)) else prev
  }

  lemma TallyValues(kind: Tallied, ts: seq<Transaction>, userName: string, prev: seq<NamedTotal>, r: seq<NamedTotal>)
    requires ts != []
    requires IsTally(kind, ts[..|ts| - 1], userName, prev)
    requires r == StepTally(kind, ts[|ts| - 1], userName, prev)
    ensures forall j :: 0 <= j < |r| ==> r[j].value == GroupTotal(kind, ts, userName, r[j].name)
  {
    var t := ts[|ts| - 1];
    if Counted(kind, t, userName) && t.groupName.value !in Keys(prev) {
      var init := ts[..|ts| - 1];
      forall i | 0 <= i < |init| && Counted(kind, init[i], userName)
        ensures init[i].groupName != Some(t.groupName.value)
      {
        assert init[i].groupName.value in Keys(prev);
      }
      GroupTotalOfAbsentKey(kind, init, userName, t.groupName.value);
    }
  }

  lemma TallyWitness(kind: Tallied, ts: seq<Transaction>, userName: string, prev: seq<NamedTotal>, r: seq<NamedTotal>, j: nat)
    requires ts != []
    requires IsTally(kind, ts[..|ts| - 1], userName, prev)
    requires r == StepTally(kind, ts[|ts| - 1], userName, prev)
    requires j < |r|
    ensures exists i :: 0 <= i < |ts| && Counted(kind, ts[i], userName) && ts[i].groupName == Some(r[j].name)
  {
    var init := ts[..|ts| - 1];
    var t := ts[|ts| - 1];
    if j < |prev| {
      assert r[j].name == prev[j].name;
      var i :| 0 <= i < |init| && Counted(kind, init[i], userName) && init[i].groupName == Some(prev[j].name);
      assert ts[i] == init[i];
    } else {
      assert Counted(kind, t, userName);
      assert r[j].name == t.groupName.value;
      assert ts[|ts| - 1] == t;
    }
  }

  lemma TallyCoverage(kind: Tallied, ts: seq<Transaction>, userName: string, prev: seq<NamedTotal>, r: seq<NamedTotal>)
    requires ts != []
    requires IsTally(kind, ts[..|ts| - 1], userName, prev)
    requires r == StepTally(kind, ts[|ts| - 1], userName, prev)
    ensures forall i :: 0 <= i < |ts| && Counted(kind, ts[i], userName) ==> ts[i].groupName.value in Keys(r)
  {
    var init := ts[..|ts| - 1];
    forall i | 0 <= i < |ts| && Counted(kind, ts[i], userName)
      ensures ts[i].groupName.value in Keys(r)
    {
      if i < |init| {
        assert ts[i] == init[i];
        var k := IndexOf(Keys(prev), ts[i].groupName.value);
        assert Keys(r)[k] == Keys(prev)[k];
      }
    }
  }

  /** The index `sort((a, b) => b - a)[0]` picks: a maximum, and (the sort
      being stable) the first one. */
  function FirstMax(vs: seq<real>): (k: nat)
    requires |vs| > 0
    ensures k < |vs|
    ensures forall i :: 0 <= i < |vs| ==> vs[i] <= vs[k]
    ensures forall i :: 0 <= i < k ==> vs[i] < vs[k]
  {
    if |vs| == 1 then 0
    else
      var k := FirstMax(vs[1..]);
      if vs[0] >= vs[k + 1] then 0 else k + 1
  }

  /** The first entry of the `Map` sorted by value, descending, or `null`. */
  function TopEntry(es: seq<NamedTotal>): (r: Option<NamedTotal>)
    ensures r.None? <==> es == []
    ensures r.Some? ==> r.value in es && forall j :: 0 <= j < |es| ==> es[j].value <= r.value.value
    ensures r.Some? ==> forall j :: 0 <= j < IndexOf(es, r.value) ==> es[j].value < r.value.value
  {
    if es == [] then None
    else
      var k := FirstMax(Values(es));
      assert IndexOf(es, es[k]) <= k;
      Some(es[k])
  }

  /** The expenses the user paid with an amount (profileStats.ts:88-90). */
  function PaidExpenses(ut: seq<Transaction>, userName: string): seq<Transaction> {
    Filter(ut, (t: Transaction) => t.kind == Expense && HasAmount(t) && t.paidBy == Some(userName))
  }

  function Amounts(ts: seq<Transaction>): (r: seq<real>)
    ensures |r| == |ts| && forall i :: 0 <= i < |ts| ==> r[i] == ts[i].amount.GetOr(0.0)
  {
    seq(|ts|, i requires 0 <= i < |ts| => ts[i].amount.GetOr(0.0))
  }

  /** `largestTransaction` (profileStats.ts:96-98): the first expense with
      the greatest amount, or `null` when there is none. */
  function Largest(expenses: seq<Transaction>): (r: Option<LargestTransaction>)
    ensures r.None? <==> expenses == []
    ensures r.Some? ==> exists k :: 0 <= k < |expenses| && r.value == Describe(expenses[k])
    ensures r.Some? ==> forall i :: 0 <= i < |expenses| ==> expenses[i].amount.GetOr(0.0) <= r.value.amount
    ensures r.Some? ==> exists k ::
      && 0 <= k < |expenses| && r.value == Describe(expenses[k])
      && forall j :: 0 <= j < k ==> expenses[j].amount.GetOr(0.0) < r.value.amount
  {
    if expenses == [] then None
    else
      var k := FirstMax(Amounts(expenses));
      assert forall j :: 0 <= j < k ==> expenses[j].amount.GetOr(0.0) < Describe(expenses[k]).amount;
      Some(Describe(expenses[k]))
  }

  function Describe(t: Transaction): LargestTransaction {
    LargestTransaction(t.description, t.amount.GetOr(0.0), t.date)
  }

  /** `averageTransactionAmount` (profileStats.ts:91-93). */
  function Average(expenses: seq<Transaction>): real {
    if |expenses| > 0 then SumAmounts(expenses) / (|expenses| as real) else 0.0
  }

  /** The calendar month before `now` (profileStats.ts:111-112). */
  function PreviousMonth(now: Date): (d: Date)
    ensures 0 <= now.month < 12 ==>
      0 <= d.month < 12 && d.year * 12 + d.month == now.year * 12 + now.month - 1
  {
    if now.month == 0 then Date(now.year - 1, 11) else Date(now.year, now.month - 1)
  }

  /** What the user paid in the month of `d` (profileStats.ts:114-132). */
  function MonthSpending(ut: seq<Transaction>, userName: string, d: Date): real {
    SumAmounts(Filter(ut, (t: Transaction) => t.paidBy == Some(userName) && HasAmount(t) && InMonth(t, d)))
  }

  function TrendOf(current: real, last: real): (r: Trend)
    ensures r == Up <==> current > last
    ensures r == Down <==> current < last
    ensures r == Same <==> current == last
  {
    if current > last then Up else if current < last then Down else Same
  }

  /** The statistics `calculateUserStatistics(user, transactions, groups)`
      returns, with the two `Map`s already built as `activity` and `spending`. */
  function StatisticsFrom(user: User, transactions: seq<Transaction>, groups: seq<Group>, now: Date,
                          activity: seq<NamedTotal>, spending: seq<NamedTotal>): UserStatistics
  {
    var userName := user.name;
    var ut := UserTransactions(transactions, userName);
    var expenses := PaidExpenses(ut, userName);
    var current := MonthSpending(ut, userName, now);
    var last := MonthSpending(ut, userName, PreviousMonth(now));
    UserStatistics(
      |Filter(groups, (g: Group) => userName in g.members)|,
      |Filter(ut, (t: Transaction) => t.kind == Expense)|,
      SumAmounts(Filter(ut, (t: Transaction) => t.paidBy == Some(userName) && HasAmount(t))),
      TopEntry(activity),
      TopEntry(spending),
      Average(expenses),
      Largest(expenses),
      |Filter(groups, (g: Group) => |g.members| > 0 && g.members[0] == userName)|,
      |Filter(ut, (t: Transaction) => t.status == Some(Settled))|,
      |Filter(ut, (t: Transaction) => t.status == Some(Pending))|,
      MonthlyStats(current, last, TrendOf(current, last)))
  }

  function Statistics(user: User, transactions: seq<Transaction>, groups: seq<Group>, now: Date): UserStatistics
  {
    var ut := UserTransactions(transactions, user.name);
    StatisticsFrom(user, transactions, groups, now, Tally(Activity, ut, user.name), Tally(PaidIn, ut, user.name))
  }

  /** `calculateUserStatistics(user, transactions, groups)`. */
  method CalculateUserStatistics(user: User, transactions: seq<Transaction>, groups: seq<Group>, now: Date)
    returns (stats: UserStatistics)
    ensures stats == Statistics(user, transactions, groups, now)
  {
    var userTransactions := UserTransactions(transactions, user.name);
    var groupActivity := BuildTally(Activity, userTransactions, user.name);
    var groupSpending := BuildTally(PaidIn, userTransactions, user.name);
    stats := StatisticsFrom(user, transactions, groups, now, groupActivity, groupSpending);
  }

  /** The `forEach` that fills `groupActivity` or `groupSpending`. */
  method BuildTally(kind: Tallied, userTransactions: seq<Transaction>, userName: string)
    returns (entries: seq<NamedTotal>)
    ensures entries == Tally(kind, userTransactions, userName)
  {
    entries := [];
    var i := 0;
    while i < |userTransactions|
      invariant 0 <= i <= |userTransactions|
      invariant entries == Tally(kind, userTransactions[..i], userName)
    {
      var t := userTransactions[i];
      assert userTransactions[..i + 1][..i] == userTransactions[..i];
      if Counted(kind, t, userName) {
        entries := Bump(entries, t.groupName.value, Weight(kind, t));
      }
      i := i + 1;
    }
    assert userTransactions[..|userTransactions|] == userTransactions;
  }

  /** The entry reported for a per-group `Map` is a busiest group: it exists
      exactly when some transaction is counted, its figure is its group's
      total, and no group that occurs has a larger total. */
  lemma TopGroupIsLargest(kind: Tallied, ut: seq<Transaction>, userName: string)
    ensures var top := TopEntry(Tally(kind, ut, userName));
      && (top.None? <==> forall i :: 0 <= i < |ut| ==> !Counted(kind, ut[i], userName))
      && (top.Some? ==>
            && top.value.value == GroupTotal(kind, ut, userName, top.value.name)
            && (exists i :: 0 <= i < |ut| && Counted(kind, ut[i], userName) && ut[i].groupName == Some(top.value.name))
            && forall i :: 0 <= i < |ut| && Counted(kind, ut[i], userName) ==>
                 GroupTotal(kind, ut, userName, ut[i].groupName.value) <= top.value.value)
  {
    var es := Tally(kind, ut, userName);
    var top := TopEntry(es);
    if top.Some? {
      var k :| 0 <= k < |es| && es[k] == top.value;
      forall i | 0 <= i < |ut| && Counted(kind, ut[i], userName)
        ensures GroupTotal(kind, ut, userName, ut[i].groupName.value) <= top.value.value
      {
        var j := IndexOf(Keys(es), ut[i].groupName.value);
        assert es[j].value <= top.value.value;
      }
    }
  }

  /** `groupActivity` counts transactions: a group's figure is the number of
      counted transactions carrying its name. */
  lemma {:induction false} ActivityIsCount(ut: seq<Transaction>, userName: string, key: string)
    ensures GroupTotal(Activity, ut, userName, key)
         == |Filter(ut, (t: Transaction) => HasGroupName(t) && t.groupName == Some(key))| as real
  {
    if ut != [] {
      var init := ut[..|ut| - 1];
      ActivityIsCount(init, userName, key);
      assert init + [ut[|ut| - 1]] == ut;
      FilterConcat(init, [ut[|ut| - 1]], (t: Transaction) => HasGroupName(t) && t.groupName == Some(key));
    }
  }

  lemma {:induction false} SumAtMostCountTimesMax(ts: seq<Transaction>, m: real)
    requires forall i :: 0 <= i < |ts| ==> ts[i].amount.GetOr(0.0) <= m
    ensures SumAmounts(ts) <= (|ts| as real) * m
  {
    if ts != [] {
      SumAtMostCountTimesMax(ts[1..], m);
    }
  }

  lemma QuotientAtMost(x: real, n: real, m: real)
    requires n > 0.0 && x <= n * m
    ensures x / n <= m
  {
  }

  /** The average expense never exceeds the largest one, and is zero when
      there are no expenses. */
  lemma AverageAtMostLargest(expenses: seq<Transaction>)
    ensures Largest(expenses).None? ==> Average(expenses) == 0.0
    ensures Largest(expenses).Some? ==> Average(expenses) <= Largest(expenses).value.amount
  {
    if expenses != [] {
      var m := Largest(expenses).value.amount;
      SumAtMostCountTimesMax(expenses, m);
      QuotientAtMost(SumAmounts(expenses), |expenses| as real, m);
    }
  }

  /** The counters are consistent: settled and pending transactions are
      distinct, admin groups are among the user's groups, and expenses are
      among the user's transactions. */
  lemma CountsConsistent(user: User, transactions: seq<Transaction>, groups: seq<Group>, now: Date)
    ensures var s := Statistics(user, transactions, groups, now);
      var ut := UserTransactions(transactions, user.name);
      && s.settledTransactions + s.pendingTransactions <= |ut|
      && s.groupsAsAdmin <= s.totalGroups <= |groups|
      && s.totalTransactions <= |ut| <= |transactions|
  {
    var ut := UserTransactions(transactions, user.name);
    FilterDisjoint(ut, (t: Transaction) => t.status == Some(Settled), (t: Transaction) => t.status == Some(Pending));
    FilterMonotone(groups, (g: Group) => |g.members| > 0 && g.members[0] == user.name, (g: Group) => user.name in g.members);
  }

  /** With non-negative amounts, the two sums of disjoint parts of a list
      stay within the sum of a part containing both. */
  lemma {:induction false} DisjointSums(ts: seq<Transaction>, p: Transaction -> bool, q: Transaction -> bool, r: Transaction -> bool)
    requires forall i :: 0 <= i < |ts| ==> ts[i].amount.GetOr(0.0) >= 0.0
    requires forall i :: 0 <= i < |ts| ==> !(p(ts[i]) && q(ts[i]))
    requires forall i :: 0 <= i < |ts| && (p(ts[i]) || q(ts[i])) ==> r(ts[i])
    ensures SumAmounts(Filter(ts, p)) + SumAmounts(Filter(ts, q)) <= SumAmounts(Filter(ts, r))
  {
    if ts != [] {
      DisjointSums(ts[1..], p, q, r);
      SumNonNegative(Filter(ts[1..], r));
    }
  }

  lemma {:induction false} SumNonNegative(ts: seq<Transaction>)
    requires forall i :: 0 <= i < |ts| ==> ts[i].amount.GetOr(0.0) >= 0.0
    ensures SumAmounts(ts) >= 0.0
  {
    if ts != [] {
      SumNonNegative(ts[1..]);
    }
  }

  /** This month's and last month's spending are disjoint parts of the total
      the user paid, so with non-negative amounts they add up to at most it. */
  lemma MonthlySpendingWithinTotal(user: User, transactions: seq<Transaction>, groups: seq<Group>, now: Date)
    requires forall i :: 0 <= i < |transactions| ==> transactions[i].amount.GetOr(0.0) >= 0.0
    ensures var s := Statistics(user, transactions, groups, now);
      s.monthlyStats.currentMonth + s.monthlyStats.lastMonth <= s.totalAmountSpent
  {
    var userName := user.name;
    var ut := UserTransactions(transactions, userName);
    var prev := PreviousMonth(now);
    assert prev.month != now.month;
    DisjointSums(ut,
      (t: Transaction) => t.paidBy == Some(userName) && HasAmount(t) && InMonth(t, now),
      (t: Transaction) => t.paidBy == Some(userName) && HasAmount(t) && InMonth(t, prev),
      (t: Transaction) => t.paidBy == Some(userName) && HasAmount(t));
  }
}
