/** `handleSubmit` of src/components/AddExpenseModal.tsx: the transaction
    built from the expense form, depending on the chosen expense type. The
    clock's id and date are parameters. */
module AddExpense {
  import opened Wrappers
  import opened Schema
  import opened Balances
  import opened ExpenseForm

  /** `k` is the index of the first group with that id. */
  predicate FirstWithId(groups: seq<Group>, id: string, k: int) {
    0 <= k < |groups| && groups[k].id == id && forall i :: 0 <= i < k ==> groups[i].id != id
  }

  /** `groups.find(g => g.id === id)`: the first group with that id. */
  function FindGroup(groups: seq<Group>, id: string): (r: Option<Group>)
    ensures r.None? <==> forall i :: 0 <= i < |groups| ==> groups[i].id != id
    ensures r.Some? ==> exists k :: FirstWithId(groups, id, k) && groups[k] == r.value
  {
    if groups == [] then None
    else if groups[0].id == id then Some(groups[0])
    else
      var r := FindGroup(groups[1..], id);
      assert r.Some? ==> exists k :: FirstWithId(groups, id, k) && groups[k] == r.value by {
        if r.Some? {
          var k :| FirstWithId(groups[1..], id, k) && groups[1..][k] == r.value;
          assert FirstWithId(groups, id, k + 1);
        }
      }
      r
  }

  /** The transaction `handleSubmit` hands to `onSubmit`
      (AddExpenseModal.tsx:40-75). */
  function BuildExpense(form: FormData, groups: seq<Group>, currentUser: string, id: string, date: Date): (t: Transaction)
    ensures t.id == id && t.kind == Expense && t.description == form.description
    ensures t.amount == Some(form.amount) && t.date == date
    ensures form.expenseType == PersonalExpense ==>
      t.paidBy == Some(currentUser) && t.splitBetween == Some([currentUser]) && t.groupName == None
    ensures form.expenseType != PersonalExpense ==>
      t.splitBetween == Some(form.splitBetween)
      && (t.groupName.Some? <==> exists i :: 0 <= i < |groups| && groups[i].id == form.groupId)
      && (t.groupName.Some? ==> exists i :: 0 <= i < |groups| && groups[i].id == form.groupId && groups[i].name == t.groupName.value)
      && (t.groupName.Some? ==> exists k :: FirstWithId(groups, form.groupId, k) && groups[k].name == t.groupName.value)
    ensures t.paidBy == Some(if form.expenseType in {PersonalExpense, OwedExpense} then currentUser else form.paidBy)
    ensures t.status == Some(if form.expenseType in {PersonalExpense, SettledExpense} then Settled else Pending)
  {
    var selectedGroup := FindGroup(groups, form.groupId);
    var groupName := if selectedGroup.Some? then Some(selectedGroup.value.name) else None;
    match form.expenseType
    case PersonalExpense =>
      Transaction(id, Expense, form.description, Some(form.amount), Some(currentUser), Some([currentUser]), date, Some(Settled), None)
    case OweExpense =>
      Transaction(id, Expense, form.description, Some(form.amount), Some(form.paidBy), Some(form.splitBetween), date, Some(Pending), groupName)
    case OwedExpense =>
      Transaction(id, Expense, form.description, Some(form.amount), Some(currentUser), Some(form.splitBetween), date, Some(Pending), groupName)
    case SettledExpense =>
      Transaction(id, Expense, form.description, Some(form.amount), Some(form.paidBy), Some(form.splitBetween), date, Some(Settled), groupName)
  }

  /** What recording the new expense does to the current user's summary,
      per expense type: a personal expense only adds to this month's
      spending; 'you owe' adds one share to what the user owes when the user
      is in the split and someone else paid; 'you are owed' adds the others'
      part to what the user is owed only when the user is in the split, and
      nothing at all otherwise; 'settled' moves no balance. */
  lemma ExpenseEffectOnSummary(form: FormData, groups: seq<Group>, currentUser: string, id: string,
                               date: Date, ts: seq<Transaction>, now: Date)
    requires form.amount != 0.0
    ensures var t := BuildExpense(form, groups, currentUser, id, date);
      var before, after := Summary(ts, currentUser, now), Summary([t] + ts, currentUser, now);
      var n := |form.splitBetween| as real;
      && (form.expenseType == PersonalExpense ==>
            after == before.(monthlySpending := before.monthlySpending + (if InMonth(t, now) then form.amount else 0.0)))
      && (form.expenseType == OweExpense && currentUser in form.splitBetween && form.paidBy != currentUser ==>
            after.youOwe == before.youOwe + form.amount / n && after.youAreOwed == before.youAreOwed)
      && (form.expenseType == OwedExpense && currentUser in form.splitBetween ==>
            after.youOwe == before.youOwe
            && after.youAreOwed == before.youAreOwed
                 + (if form.amount - form.amount / n > 0.0 then form.amount - form.amount / n else 0.0))
      && (form.expenseType == OwedExpense && currentUser !in form.splitBetween ==>
            after.youOwe == before.youOwe && after.youAreOwed == before.youAreOwed)
      && (form.expenseType == SettledExpense ==>
            after.youOwe == before.youOwe && after.youAreOwed == before.youAreOwed)
  {
    var t := BuildExpense(form, groups, currentUser, id, date);
    AddedTransactionEffect(t, ts, currentUser, now);
    if form.expenseType == PersonalExpense {
      assert Share(t) == form.amount;
    }
  }
}
