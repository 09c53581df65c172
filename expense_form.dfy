/** The expense form of src/components/ExpenseForm.tsx: its state (the
    `useState` hooks), the member toggle, the group selector, the validity
    flag and the submitted record. The amount field is empty (`None`) until
    a number is entered. */
module ExpenseForm {
  import opened Wrappers
  import opened Seqs

  /** 'you_owe', 'you_are_owed', 'settled' and 'personal'. */
  datatype ExpenseType = OweExpense | OwedExpense | SettledExpense | PersonalExpense

  /** The record handed to `onSubmit`. */
  datatype FormData = FormData(
    amount: real,
    description: string,
    groupId: string,
    expenseType: ExpenseType,
    paidBy: string,
    splitBetween: seq<string>,
    category: string)

  /** The selector entry that opens the group-creation modal. */
  const CreateNewGroup: string := "create-new-group"

  const AllExpenseTypes: seq<ExpenseType> := [OweExpense, OwedExpense, SettledExpense, PersonalExpense]

  lemma EveryTypeListed()
    ensures forall e: ExpenseType :: e in AllExpenseTypes
  {
    forall e: ExpenseType
      ensures e in AllExpenseTypes
    {
      var k := match e
        case OweExpense => 0
        case OwedExpense => 1
        case SettledExpense => 2
        case PersonalExpense => 3;
      assert AllExpenseTypes[k] == e;
    }
  }

  /** The amount is truthy: entered and not zero. */
  predicate AmountEntered(amount: Option<real>) {
    amount.Some? && amount.value != 0.0
  }

  /** `prev.includes(m) ? prev.filter(x => x !== m) : [...prev, m]`
      (ExpenseForm.tsx:113-119): the member's presence flips and nobody
      else's does. An absent member is appended once at the end; a present
      one loses every copy while the others keep their order and counts. */
  function Toggle(xs: seq<string>, member: string): (r: seq<string>)
    ensures member in r <==> member !in xs
    ensures forall x :: x != member ==> (x in r <==> x in xs)
    ensures member !in xs ==> |r| == |xs| + 1 && r[..|xs|] == xs && r[|xs|] == member
    ensures member in xs ==>
      && IsSubsequence(r, xs)
      && forall x :: multiset(r)[x] == if x == member then 0 else multiset(xs)[x]
  {
    if member in xs then
      FilterCounts(xs, (m: string) => m != member);
      Filter(xs, (m: string) => m != member)
    else
      assert (xs + [member])[..|xs|] == xs;
      xs + [member]
  }

  /** Ticking a member and unticking them again restores the split list. */
  lemma ToggleTwiceRestores(xs: seq<string>, member: string)
    requires member !in xs
    ensures Toggle(Toggle(xs, member), member) == xs
  {
    var p := (m: string) => m != member;
    FilterConcat(xs, [member], p);
    FilterAll(xs, p);
    assert Filter([member], p) == [];
  }

  /** A truthy group id that belongs to an existing group. */
  predicate Usable(id: string, groupIds: seq<string>) {
    id != "" && id in groupIds
  }

  class Form {
    const currentUser: string
    var amount: Option<real>
    var description: string
    var groupId: string
    var expenseType: ExpenseType
    var paidBy: string
    var splitBetween: seq<string>
    var category: string

    /** The initial state (ExpenseForm.tsx:68-74). */
    constructor(currentUser: string)
      ensures this.currentUser == currentUser
      ensures amount == None && description == "" && groupId == "" && expenseType == PersonalExpense
      ensures paidBy == currentUser && splitBetween == [currentUser] && category == "food"
    {
      this.currentUser := currentUser;
      amount := None;
      description := "";
      groupId := "";
      expenseType := PersonalExpense;
      paidBy := currentUser;
      splitBetween := [currentUser];
      category := "food";
    }

    /** The `useEffect` that selects a newly created or preselected group
      (ExpenseForm.tsx:80-88) when it exists among the groups' ids. */
    method AutoSelectGroup(newlyCreatedGroupId: string, preselectedGroupId: string, groupIds: seq<string>)
      modifies this`groupId, this`expenseType
      ensures Usable(newlyCreatedGroupId, groupIds) ==>
        groupId == newlyCreatedGroupId && expenseType == OwedExpense
      ensures !Usable(newlyCreatedGroupId, groupIds) && Usable(preselectedGroupId, groupIds) ==>
        groupId == preselectedGroupId && expenseType == OwedExpense
      ensures !Usable(newlyCreatedGroupId, groupIds) && !Usable(preselectedGroupId, groupIds) ==>
        groupId == old(groupId) && expenseType == old(expenseType)
    {
      if Usable(newlyCreatedGroupId, groupIds) {
        groupId := newlyCreatedGroupId;
        expenseType := OwedExpense;
      } else if Usable(preselectedGroupId, groupIds) {
        groupId := preselectedGroupId;
        expenseType := OwedExpense;
      }
    }

    /** The expense types offered (ExpenseForm.tsx:91-93): all four once a
      group is chosen, otherwise only 'personal'. */
    function AvailableExpenseTypes(): (r: seq<ExpenseType>)
      reads this
      ensures PersonalExpense in r && |r| >= 1
      ensures OweExpense in r <==> groupId != ""
      ensures groupId == "" ==> r == [PersonalExpense]
      ensures groupId != "" ==> |r| == 4 && forall e: ExpenseType :: e in r
    {
      if groupId != "" then
        EveryTypeListed();
        AllExpenseTypes
      else
        var r := Filter(AllExpenseTypes, (e: ExpenseType) => e == PersonalExpense);
        assert AllExpenseTypes[3] == PersonalExpense;
        r
    }

    /** Whether the submit button is enabled (ExpenseForm.tsx:145-146). */
    predicate IsFormValid()
      reads this
    {
      AmountEntered(amount) && description != ""
        && (expenseType == PersonalExpense || (groupId != "" && |splitBetween| > 0))
    }

    /** `handleSubmit` (ExpenseForm.tsx:95-111): the record passed to
      `onSubmit`, or `None` when a guard returns early. A valid form always
      submits; the guards do not re-check that the split is non-empty. */
    function HandleSubmit(): (r: Option<FormData>)
      reads this
      ensures IsFormValid() ==> r.Some?
      ensures r.Some? <==> AmountEntered(amount) && description != "" && (expenseType == PersonalExpense || groupId != "")
      ensures r.Some? ==>
        r.value == FormData(amount.value, description, groupId, expenseType, paidBy, splitBetween, category)
    {
      if !AmountEntered(amount) || description == "" then None
      else if expenseType != PersonalExpense && groupId == "" then None
      else Some(FormData(amount.value, description, groupId, expenseType, paidBy, splitBetween, category))
    }

    /** Ticking or unticking a member in the split list. */
    method HandleMemberToggle(member: string)
      modifies this`splitBetween
      ensures splitBetween == Toggle(old(splitBetween), member)
    {
      if member in splitBetween {
        splitBetween := Filter(splitBetween, (m: string) => m != member);
      } else {
        splitBetween := splitBetween + [member];
      }
    }

    /** The group selector (ExpenseForm.tsx:122-134): the create entry only
      opens the modal; clearing the group falls back to a personal expense
      of the current user alone. */
    method HandleGroupChange(value: Option<string>)
      modifies this`groupId, this`expenseType, this`splitBetween, this`paidBy
      ensures value == Some(CreateNewGroup) ==>
        groupId == old(groupId) && expenseType == old(expenseType)
        && splitBetween == old(splitBetween) && paidBy == old(paidBy)
      ensures value != Some(CreateNewGroup) ==> groupId == value.GetOr("")
      ensures value.None? || value == Some("") ==>
        && expenseType == PersonalExpense && splitBetween == [currentUser] && paidBy == currentUser
        && AvailableExpenseTypes() == [PersonalExpense]
      ensures value.Some? && value.value != "" && value != Some(CreateNewGroup) ==>
        expenseType == old(expenseType) && splitBetween == old(splitBetween) && paidBy == old(paidBy)
    {
      if value == Some(CreateNewGroup) {
        return;
      }
      groupId := value.GetOr("");
      if value.None? || value.value == "" {
        expenseType := PersonalExpense;
        splitBetween := [currentUser];
        paidBy := currentUser;
      }
    }
  }
}
