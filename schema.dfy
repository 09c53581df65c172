/** The records of the expense-splitting dashboard (src/types/schema.ts and
    src/types/enums.ts). Optional TypeScript fields are `Option`s, money is an
    exact `real`, and a transaction's `Date` keeps only what the balance
    engine reads from it: the calendar year and the 0-based month. */
module Schema {
  import opened Wrappers

  datatype TransactionType = Expense | Settlement | GroupCreated | GroupJoined

  datatype TransactionStatus = Pending | Settled | PartiallySettled

  /** `BalanceType`: 'owed_to_you', 'you_owe' and 'settled'. */
  datatype BalanceType = OwedToYou | YouOwe | SettledUp

  /** A calendar month: `getFullYear()` and `getMonth()` (0 = January). */
  datatype Date = Date(year: int, month: int)

  datatype User = User(id: string, name: string, email: string, avatar: string)

  datatype FinancialSummary = FinancialSummary(
    totalBalance: real,
    youOwe: real,
    youAreOwed: real,
    monthlySpending: real)

  /** A transaction; `kind` is the source's `type` field. */
  datatype Transaction = Transaction(
    id: string,
    kind: TransactionType,
    description: string,
    amount: Option<real>,
    paidBy: Option<string>,
    splitBetween: Option<seq<string>>,
    date: Date,
    status: Option<TransactionStatus>,
    groupName: Option<string>)

  datatype GroupMember = GroupMember(name: string, settled: bool)

  datatype Group = Group(
    id: string,
    name: string,
    members: seq<string>,
    memberDetails: Option<seq<GroupMember>>,
    totalBalance: real,
    memberCount: int,
    avatar: string,
    expenses: Option<seq<Transaction>>)

  datatype Friend = Friend(
    id: string,
    name: string,
    email: string,
    balance: real,
    balanceType: BalanceType,
    avatar: string)

  /** `transaction.amount` is truthy: present and not zero. */
  predicate HasAmount(t: Transaction) {
    t.amount.Some? && t.amount.value != 0.0
  }

  /** `transaction.splitBetween?.includes(name)`. */
  predicate InSplit(t: Transaction, name: string) {
    t.splitBetween.Some? && name in t.splitBetween.value
  }

  predicate IsSettled(t: Transaction) {
    t.status == Some(Settled)
  }

  /** `amount / splitBetween.length`, the even share of one split member. */
  function Share(t: Transaction): real
    requires t.amount.Some? && t.splitBetween.Some? && |t.splitBetween.value| > 0
  {
    t.amount.value / (|t.splitBetween.value| as real)
  }
}
