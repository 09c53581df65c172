/** `calculateGroupMemberBalances` of src/utils/groupUtils.ts: for each member
    of a group, the net amount between that member and the current user over
    the group's unsettled transactions, classified with a 0.01 threshold. The
    outer `map` over members is pure; the inner `forEach` accumulates a
    running balance and is a method with a loop. */
module GroupUtils {
  import opened Wrappers
  import opened Schema
  import opened Seqs
  import opened Balances

  datatype GroupMemberBalance = GroupMemberBalance(name: string, balance: real, balanceType: BalanceType)

  function Abs(x: real): real {
    if x < 0.0 then -x else x
  }

  /** What one transaction adds to `memberBalance` (groupUtils.ts:21-35). */
  function MemberContribution(t: Transaction, memberName: string, currentUser: string): real
  {
    if !HasAmount(t) || !InSplit(t, memberName) then 0.0
    else if t.paidBy == Some(currentUser) && memberName != currentUser then
      (if !IsSettled(t) then Share(t) else 0.0)
    else if t.paidBy == Some(memberName) && memberName != currentUser then
      (if !IsSettled(t) then -Share(t) else 0.0)
    else 0.0
  }

  /** The member's signed net after visiting the group's transactions in order:
      positive when the member owes the current user. */
  function MemberNet(xs: seq<Transaction>, memberName: string, currentUser: string): real
  {
    if xs == [] then 0.0
    else MemberNet(xs[..|xs| - 1], memberName, currentUser) + MemberContribution(xs[|xs| - 1], memberName, currentUser)
  }

  /** The balance type decision (groupUtils.ts:39-46). */
  function Classify(net: real): BalanceType {
    if Abs(net) < 0.01 then SettledUp
    else if net > 0.0 then OwedToYou
    else YouOwe
  }

  /** The list `calculateGroupMemberBalances` returns. */
  function MemberBalances(group: Group, transactions: seq<Transaction>, currentUser: string): (r: seq<GroupMemberBalance>)
    ensures |r| == |group.members|
    ensures forall i :: 0 <= i < |r| ==> r[i].name == group.members[i] && r[i].balance >= 0.0
    ensures forall i :: 0 <= i < |r| ==>
      var net := MemberNet(GroupTransactions(transactions, group.name), group.members[i], currentUser);
      && r[i].balance == Abs(net)
      && (r[i].balanceType == SettledUp <==> -0.01 < net < 0.01)
      && (r[i].balanceType == OwedToYou <==> net >= 0.01)
      && (r[i].balanceType == YouOwe <==> net <= -0.01)
  {
    var xs := GroupTransactions(transactions, group.name);
    seq(|group.members|, i requires 0 <= i < |group.members| =>
      var net := MemberNet(xs, group.members[i], currentUser);
      GroupMemberBalance(group.members[i], Abs(net), Classify(net)))
  }

  /** `calculateGroupMemberBalances(group, transactions, currentUser)`. */
  method CalculateGroupMemberBalances(group: Group, transactions: seq<Transaction>, currentUser: string)
    returns (balances: seq<GroupMemberBalance>)
    ensures balances == MemberBalances(group, transactions, currentUser)
  {
    var groupTransactions := GroupTransactions(transactions, group.name);
    balances := [];
    var k := 0;
    while k < |group.members|
      invariant 0 <= k <= |group.members|
      invariant |balances| == k
      invariant forall j :: 0 <= j < k ==> balances[j] == MemberBalances(group, transactions, currentUser)[j]
    {
      var memberName := group.members[k];
      var memberBalance := AccumulateMemberBalance(groupTransactions, memberName, currentUser);
      var balanceType: BalanceType;
      if Abs(memberBalance) < 0.01 {
        balanceType := SettledUp;
      } else if memberBalance > 0.0 {
        balanceType := OwedToYou;
      } else {
        balanceType := YouOwe;
      }
      balances := balances + [GroupMemberBalance(memberName, Abs(memberBalance), balanceType)];
      k := k + 1;
    }
  }

  /** The inner `forEach` that accumulates `memberBalance`. */
  method AccumulateMemberBalance(groupTransactions: seq<Transaction>, memberName: string, currentUser: string)
    returns (memberBalance: real)
    ensures memberBalance == MemberNet(groupTransactions, memberName, currentUser)
  {
    memberBalance := 0.0;
    var i := 0;
    while i < |groupTransactions|
      invariant 0 <= i <= |groupTransactions|
      invariant memberBalance == MemberNet(groupTransactions[..i], memberName, currentUser)
    {
      var transaction := groupTransactions[i];
      assert groupTransactions[..i + 1][..i] == groupTransactions[..i];
      if HasAmount(transaction) && InSplit(transaction, memberName) {
        var splitAmount := transaction.amount.value / (|transaction.splitBetween.value| as real);
        if transaction.paidBy == Some(currentUser) && memberName != currentUser {
          if transaction.status != Some(Settled) {
            memberBalance := memberBalance + splitAmount;
          }
        } else if transaction.paidBy == Some(memberName) && memberName != currentUser {
          if transaction.status != Some(Settled) {
            memberBalance := memberBalance - splitAmount;
          }
        }
      }
      i := i + 1;
    }
    assert groupTransactions[..|groupTransactions|] == groupTransactions;
  }

  /** The current user's own net is always zero: both contributing branches
      exclude the current user. */
  lemma {:induction false} OwnNetIsZero(xs: seq<Transaction>, currentUser: string)
    ensures MemberNet(xs, currentUser, currentUser) == 0.0
  {
    if xs != [] {
      OwnNetIsZero(xs[..|xs| - 1], currentUser);
    }
  }

  /** So the current user's own entry is always balance 0 and settled. */
  lemma OwnEntryIsSettled(group: Group, transactions: seq<Transaction>, currentUser: string, i: nat)
    requires i < |group.members| && group.members[i] == currentUser
    ensures var r := MemberBalances(group, transactions, currentUser);
      r[i].balance == 0.0 && r[i].balanceType == SettledUp
  {
    OwnNetIsZero(GroupTransactions(transactions, group.name), currentUser);
  }

  /** A member's net is additive over concatenated transaction lists. */
  lemma {:induction false} MemberNetConcat(a: seq<Transaction>, b: seq<Transaction>, memberName: string, currentUser: string)
    ensures MemberNet(a + b, memberName, currentUser) == MemberNet(a, memberName, currentUser) + MemberNet(b, memberName, currentUser)
    decreases |b|
  {
    if b == [] {
      assert a + b == a;
    } else {
      assert (a + b)[..|a + b| - 1] == a + b[..|b| - 1];
      MemberNetConcat(a, b[..|b| - 1], memberName, currentUser);
    }
  }

  /** A transaction contributes only when it has an amount, the member is in
      its split and it is unsettled; then it moves the member's net by one
      share, up if the current user paid and down if the member paid, and
      not at all if a third person paid. */
  lemma TransactionEffectOnMember(xs: seq<Transaction>, t: Transaction, memberName: string, currentUser: string)
    ensures var before, after := MemberNet(xs, memberName, currentUser), MemberNet([t] + xs, memberName, currentUser);
      && (!HasAmount(t) || !InSplit(t, memberName) || IsSettled(t) || memberName == currentUser ==> after == before)
      && (HasAmount(t) && InSplit(t, memberName) && !IsSettled(t) && memberName != currentUser ==>
            after == before + (if t.paidBy == Some(currentUser) then Share(t)
                               else if t.paidBy == Some(memberName) then -Share(t)
                               else 0.0))
  {
    assert [t][..0] == [];
    MemberNetConcat([t], xs, memberName, currentUser);
  }

  /** Transactions of other groups never affect the member balances. */
  lemma OtherGroupsIgnored(group: Group, transactions: seq<Transaction>, t: Transaction, currentUser: string)
    requires t.groupName != Some(group.name)
    ensures MemberBalances(group, [t] + transactions, currentUser) == MemberBalances(group, transactions, currentUser)
  {
    FilterConcat([t], transactions, (t: Transaction) => t.groupName == Some(group.name));
    assert GroupTransactions([t] + transactions, group.name) == GroupTransactions(transactions, group.name);
  }
}
