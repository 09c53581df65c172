# SplitEasy expense-splitting dashboard: a verified model of its core

SplitEasy is a browser dashboard for shared expenses. A user records
transactions ("expenses" split between group members, settlements, group
events). The dashboard keeps a financial summary of what the user owes,
what they are owed and what they spent this month, plus a signed balance
per group and per group member. Forms create expenses, groups, payment
cards and recurring bills. Search boxes filter the history and the group
list.

This project models that core in Dafny:

- **Balance engine and store** (`balances.dfy`, `local_storage.dfy`).
  `calculateSummary` and `calculateGroupBalances` are loop methods. Each is
  proved equal to a left fold. The store is a class whose transaction edits
  recompute the summary and the group balances.
- **Per-member balances** (`group_utils.dfy`): the net each member has with
  the current user, classified with the 0.01 threshold.
- **Rename rewrite and user update** (`username_updater.dfy`,
  `user_service.dfy`).
- **Profile statistics** (`profile_stats.dfy`): counts, sums, the average,
  the busiest group, the largest expense and the month-over-month trend.
- **Forms**: `add_expense.dfy`, `create_group.dfy`, `expense_form.dfy`,
  `add_card.dfy`, `profile_form.dfy`, `recurring_bill_modal.dfy` and
  `invite_friends.dfy`. Components whose state changes step by step are
  classes.
- **Formatters** (`formatters.dfy`), the **recurring-bill list**
  (`bills_storage.dfy`), the **search filters** (`search_filters.dfy`) and the
  **group-card status line** (`group_cards.dfy`).
- **Shared pieces**: `wrappers.dfy` (Option and Result), `strings.dfy`
  (ECMAScript whitespace, `trim`, ASCII lower-casing, substring search,
  decimal digits), `seqs.dfy` (`filter`, subsequences, de-duplication) and
  `schema.dfy` (the records).

Conventions:

- Money is an exact `real`.
- An optional field is an `Option`. A "falsy" amount is one that is absent
  or zero.
- A transaction's date is its calendar year and 0-based month.
- The current time is always a parameter.

Source behaviours the model reproduces as written (none of them is claimed
as a defect):

- A 'you are owed' expense whose split does not include the current user
  moves no balance at all (`AddExpense.ExpenseEffectOnSummary`).
- The expense form's submit guard does not re-check that the split is
  non-empty. Only the button's enabled flag does (`ExpenseForm.Form.HandleSubmit`).
- The username rules reject "more than 50" characters, so exactly 50 pass
  (`ProfileForm.ValidateUsername`).
- The recurring-bill validation accepts the 'add-card' placeholder as a
  payment method. Only the button's enabled flag rejects it
  (`RecurringBillModal.EnabledIffValidAndNotPlaceholder`).
- The history search tests emptiness on the trimmed query but matches the
  untrimmed one (`SearchFilters.FilterTransactions`).

## Model

| member | source | states |
|---|---|---|
| Balances.CalculateSummary | src/hooks/useLocalStorage.ts:74-143 | the loop's result is the fold `Summary` of the list for the user and month, and `totalBalance == youAreOwed - youOwe` |
| Balances.TotalConcat | src/hooks/useLocalStorage.ts:80-132 | each summary total over a concatenation is the sum of the totals of the parts |
| Balances.AddedTransactionEffect | src/hooks/useLocalStorage.ts:83-132 | case by case, how one more transaction moves youOwe, youAreOwed and monthlySpending: falsy amounts move nothing; balances move only for unsettled transactions split with the user; the payer is owed `amount - amount/n`, another member owes `amount/n`; spending counts only the current month with the share/amount/zero rule |
| Balances.FalsyAmountIgnored | src/hooks/useLocalStorage.ts:83 | a transaction with an absent or zero amount can be inserted anywhere without changing the summary |
| Balances.SummaryNonNegative | src/hooks/useLocalStorage.ts:117-132 | with non-negative amounts youOwe, youAreOwed and monthlySpending are all non-negative |
| Balances.GroupsWithBalances | src/hooks/useLocalStorage.ts:145-175 | one group per input group, in order; only totalBalance and expenses change; expenses are exactly the transactions carrying the group's name, as a subsequence of the list, each as many times as it occurs in the list |
| Balances.GroupTransactionsCounts | src/hooks/useLocalStorage.ts:147 | the group filter keeps every transaction with the group's name exactly as many times as the list holds it, and no other |
| Balances.CalculateGroupBalances | src/hooks/useLocalStorage.ts:145-175 | the loop's result equals `GroupsWithBalances` |
| Balances.AccumulateGroupBalance | src/hooks/useLocalStorage.ts:150-167 | the inner loop's userBalance equals the fold `GroupBalance` of the group's transactions |
| Balances.GroupBalanceIsNetSummary | src/hooks/useLocalStorage.ts:150-167 | a group's balance equals the net summary balance (owed minus owe) of its own transactions |
| Balances.SettledGroupBalanceIsZero | src/hooks/useLocalStorage.ts:150-167 | a group whose transactions are all settled has balance 0 |
| LocalStorage.UpdateById | src/hooks/useLocalStorage.ts:196-198 | the patched list has the original length |
| LocalStorage.UpdateByIdEffect | src/hooks/useLocalStorage.ts:196-198 | the patch reaches exactly the transactions with the id, others stay equal, and an absent id leaves the list unchanged |
| LocalStorage.DeleteById | src/hooks/useLocalStorage.ts:215 | the result is a subsequence holding no transaction with the id and every transaction without it, each as many times as the list holds it |
| LocalStorage.RecomputeForgetsCachedBalances | src/hooks/useLocalStorage.ts:145-175 | recomputing group balances ignores any balances and expenses computed before |
| LocalStorage.Store.constructor | src/hooks/useLocalStorage.ts:8-18 | the hook starts with no user and summary, empty lists and first-time set |
| LocalStorage.Store.LoadData | src/hooks/useLocalStorage.ts:20-62 | a first-time visitor without a user gets the new user, a zero summary and empty lists; otherwise the stored snapshot is taken as is |
| LocalStorage.Store.ClearAllData | src/hooks/useLocalStorage.ts:248-251 | the store starts over as a first-time visitor with a fresh user |
| LocalStorage.Store.UpdateUser | src/hooks/useLocalStorage.ts:64-67 | the user is replaced and nothing else changes |
| LocalStorage.Store.CompleteOnboarding | src/hooks/useLocalStorage.ts:243-246 | the first-time flag is cleared and nothing else changes |
| LocalStorage.Store.SetTransactionsAndRecompute | src/hooks/useLocalStorage.ts:180-192 | the list is stored and, with a user present, summary and groups are recomputed from it under the user's name; without a user they are kept |
| LocalStorage.Store.AddTransaction | src/hooks/useLocalStorage.ts:177-193 | the new transaction is put first, the rest kept in order, and summary and groups recomputed when a user is present |
| LocalStorage.Store.UpdateTransaction | src/hooks/useLocalStorage.ts:195-212 | the list becomes `UpdateById` of the old list, then summary and groups are recomputed |
| LocalStorage.Store.DeleteTransaction | src/hooks/useLocalStorage.ts:214-229 | the list becomes `DeleteById` of the old list, then summary and groups are recomputed |
| LocalStorage.Store.AddGroup | src/hooks/useLocalStorage.ts:231-235 | the group is appended and nothing is recomputed |
| LocalStorage.Store.AddFriend | src/hooks/useLocalStorage.ts:237-241 | the friend is appended and nothing is recomputed |
| GroupUtils.MemberBalances | src/utils/groupUtils.ts:10-53 | one entry per member in `members` order; balance is the absolute net (never negative); SETTLED iff \|net\| < 0.01, OWED_TO_YOU iff net >= 0.01, YOU_OWE iff net <= -0.01 |
| GroupUtils.CalculateGroupMemberBalances | src/utils/groupUtils.ts:10-53 | the loop's result equals `MemberBalances` |
| GroupUtils.AccumulateMemberBalance | src/utils/groupUtils.ts:19-37 | the inner loop's net equals the fold `MemberNet` |
| GroupUtils.OwnNetIsZero | src/utils/groupUtils.ts:25-35 | the current user's own net is always 0 |
| GroupUtils.OwnEntryIsSettled | src/utils/groupUtils.ts:39-50 | the current user's own entry has balance 0 and type SETTLED |
| GroupUtils.MemberNetConcat | src/utils/groupUtils.ts:19-37 | a member's net over a concatenation is the sum of the nets of the parts |
| GroupUtils.TransactionEffectOnMember | src/utils/groupUtils.ts:21-35 | a transaction moves a member's net only with an amount, the member in the split, unsettled and the member not the current user; then by +share if the user paid, -share if the member paid, 0 if a third person paid |
| GroupUtils.OtherGroupsIgnored | src/utils/groupUtils.ts:15 | transactions of another group never change the member balances |
| UsernameUpdater.RenameAll | src/utils/usernameUpdater.ts:26-30 | same length; for a real rename the old name is gone; the new name appears if the old one did; no other name is introduced |
| UsernameUpdater.UpdateUsernameInData | src/utils/usernameUpdater.ts:8-71 | both lists keep their length; only paidBy/splitBetween and members/memberDetails change; the old payer and split entries become the new name; a real rename leaves the old name in no payer, split or members list |
| UsernameUpdater.RenameIsPointwise | src/utils/usernameUpdater.ts:21-53 | other payers stay; split entries and members are renamed in place, entry by entry; member details keep order and settled flags; the old name is left in no member detail |
| UsernameUpdater.RenameToSelfIsIdentity | src/utils/usernameUpdater.ts:17-56 | renaming to the same name returns the input unchanged |
| UsernameUpdater.RenameRoundTrip | src/utils/usernameUpdater.ts:17-56 | renaming to an unused name and back restores the data |
| UsernameUpdater.RenamedContribution | src/utils/usernameUpdater.ts:18-32 | a renamed transaction contributes to the new name what the original contributed to the old one |
| UsernameUpdater.RenamedTotal | src/utils/usernameUpdater.ts:17-33 | each summary total of the renamed list under the new name equals the original's under the old name |
| UsernameUpdater.RenamePreservesSummary | src/utils/usernameUpdater.ts:17-33 | when the new name was unused, the renamed user's summary is unchanged |
| UserService.UpdateUsername | src/services/userService.ts:26-32 | id and avatar kept, name replaced; the e-mail ends in "@example.com" and its local part has no whitespace, no capital and is no longer than the name |
| UserService.NoUpperRemoveSpaces | src/services/userService.ts:30 | removing whitespace keeps a string free of capitals |
| UserService.PlainNameIsLocalPart | src/services/userService.ts:30 | a lower-case name without whitespace is the e-mail's local part verbatim |
| ProfileStats.GroupTotalOfAbsentKey | src/utils/profileStats.ts:65-83 | a group name no counted transaction carries has total 0 |
| ProfileStats.Bump | src/utils/profileStats.ts:68 | adding to a key of a duplicate-free map keeps it duplicate-free, keeps existing keys in order, and appends the key only when it was absent |
| ProfileStats.Tally | src/utils/profileStats.ts:65-83 | the per-group map has distinct keys, each key's value is its group's total, each key comes from a counted transaction, and every counted transaction's group is a key |
| ProfileStats.BuildTally | src/utils/profileStats.ts:65-83 | the `forEach` loop builds exactly `Tally` |
| ProfileStats.FirstMax | src/utils/profileStats.ts:72-73 | the index of the first greatest value, which a stable descending sort puts first |
| ProfileStats.TopEntry | src/utils/profileStats.ts:72-73 | null iff the map is empty; otherwise an entry of the map with no larger value, and every entry before it has a strictly smaller value, so ties go to the first (the stable descending sort's `[0]`) |
| ProfileStats.TopGroupIsLargest | src/utils/profileStats.ts:65-85 | mostActiveGroup / mostSpentInGroup is null iff no transaction is counted; otherwise its figure is its group's total, the group occurs, and no occurring group has a larger total |
| ProfileStats.ActivityIsCount | src/utils/profileStats.ts:65-70 | a group's activity figure is the number of user transactions carrying its name |
| ProfileStats.Largest | src/utils/profileStats.ts:96-98 | null iff there is no paid expense; otherwise one of them, with an amount no smaller than any other, and every expense before it has a strictly smaller amount, so ties go to the first |
| ProfileStats.SumAtMostCountTimesMax | src/utils/profileStats.ts:91-92 | a sum of amounts each at most m is at most count times m |
| ProfileStats.AverageAtMostLargest | src/utils/profileStats.ts:88-98 | the average is 0 with no expenses and never exceeds the largest expense |
| ProfileStats.PreviousMonth | src/utils/profileStats.ts:111-112 | the month before is exactly one calendar month earlier (December of the previous year before January) |
| ProfileStats.TrendOf | src/utils/profileStats.ts:134-135 | 'up' iff current > last, 'down' iff current < last, 'same' iff equal |
| ProfileStats.CalculateUserStatistics | src/utils/profileStats.ts:32-163 | the result equals the specification `Statistics` built from the user's transactions |
| ProfileStats.CountsConsistent | src/utils/profileStats.ts:54-105 | settled plus pending transactions are at most the user's transactions; admin groups <= user's groups <= all groups; expenses <= user transactions <= all transactions |
| ProfileStats.DisjointSums | src/utils/profileStats.ts:60-62 | with non-negative amounts, the sums over two disjoint parts stay within the sum over a part containing both |
| ProfileStats.SumNonNegative | src/utils/profileStats.ts:60-62 | a sum of non-negative amounts is non-negative |
| ProfileStats.MonthlySpendingWithinTotal | src/utils/profileStats.ts:114-132 | with non-negative amounts, this month's and last month's spending together stay within totalAmountSpent |
| AddExpense.FindGroup | src/components/AddExpenseModal.tsx:40 | none iff no group has the id; otherwise the first group with it |
| AddExpense.BuildExpense | src/components/AddExpenseModal.tsx:31-79 | always an EXPENSE with the form's amount and description; personal: the user pays, split is the user alone, SETTLED, no group; 'you are owed': the user pays; 'you owe'/'settled': the form's payer; non-personal: the form's split and the name of the first group with the selected id, absent if no group matches; status PENDING except personal and settled |
| AddExpense.ExpenseEffectOnSummary | src/components/AddExpenseModal.tsx:43-75 | what the recorded expense does to the user's summary for each expense type, including that 'you are owed' without the user in the split moves no balance |
| CreateGroup.ValidParticipants | src/components/CreateGroupModal.tsx:23 | duplicate-free; every entry is a non-blank participant and every non-blank participant is kept; entries keep the order of their first occurrence in the input |
| CreateGroup.BuildGroup | src/components/CreateGroupModal.tsx:17-42 | none iff the trimmed name is empty or every participant is blank; otherwise the trimmed name, the valid participants as members, memberCount = \|members\|, one unsettled member detail per member in order, balance 0 |
| CreateGroup.CreatorIsFirstMember | src/components/CreateGroupModal.tsx:15-36 | a non-blank first row becomes the first member (the admin counted by the profile statistics) |
| CreateGroup.RemoveAt | src/components/CreateGroupModal.tsx:62 | exactly index i is removed and the rest kept in order; an out-of-range index changes nothing |
| CreateGroup.CreateGroupForm.constructor | src/components/CreateGroupModal.tsx:14-15 | empty name and participants [currentUser, ''] |
| CreateGroup.CreateGroupForm.HandleClose | src/components/CreateGroupModal.tsx:44-48 | the name is cleared and participants reset to [currentUser, ''] |
| CreateGroup.CreateGroupForm.AddParticipant | src/components/CreateGroupModal.tsx:50-52 | one empty row is appended |
| CreateGroup.CreateGroupForm.UpdateParticipant | src/components/CreateGroupModal.tsx:54-58 | only row i changes |
| CreateGroup.CreateGroupForm.RemoveParticipant | src/components/CreateGroupModal.tsx:60-65 | the last remaining row is never removed; otherwise exactly row i goes |
| CreateGroup.CreateGroupForm.HandleSubmit | src/components/CreateGroupModal.tsx:17-42 | submits `BuildGroup` of the state exactly when the form is valid, then resets; otherwise the state is kept |
| ExpenseForm.Toggle | src/components/ExpenseForm.tsx:113-119 | the member is in the result iff it was not in the list; an absent member is appended once after the unchanged list; a present one loses every copy while the result stays a subsequence keeping every other name as often as before |
| ExpenseForm.ToggleTwiceRestores | src/components/ExpenseForm.tsx:113-119 | toggling a member twice from a list without it restores the list |
| ExpenseForm.Form.constructor | src/components/ExpenseForm.tsx:68-74 | the initial state: no amount, empty description and group, personal type, the user as payer and sole split member |
| ExpenseForm.Form.AutoSelectGroup | src/components/ExpenseForm.tsx:80-88 | a newly created group, else a preselected one, is selected with type 'you are owed'; with neither, nothing changes |
| ExpenseForm.Form.AvailableExpenseTypes | src/components/ExpenseForm.tsx:91-93 | only 'personal' without a group; once a group is chosen, each of the four types exactly once (four entries, every type present) |
| ExpenseForm.Form.HandleSubmit | src/components/ExpenseForm.tsx:95-111 | submits exactly when an amount and a description are entered and the type is personal or a group is chosen (the split is not re-checked), so whenever the button is enabled; the submission carries the form's fields |
| ExpenseForm.Form.HandleMemberToggle | src/components/ExpenseForm.tsx:113-119 | the split becomes `Toggle` of the old split: the member appended at the end when absent, every copy removed when present |
| ExpenseForm.Form.HandleGroupChange | src/components/ExpenseForm.tsx:122-134 | 'create-new-group' changes nothing; clearing resets the type to personal and the split and payer to the user; another group is selected with the rest kept |
| AddCard.GroupDigits | src/components/AddCardModal.tsx:91 | one space per complete group of four followed by a digit (n + (n-1)/4 characters for n digits, stated without division), and only digits and spaces occur |
| AddCard.GroupDigitsKeepsDigits | src/components/AddCardModal.tsx:91 | deleting the spaces from the grouped digits gives back exactly the digits |
| AddCard.GroupDigitsSpaces | src/components/AddCardModal.tsx:91 | a character of the grouped digits is a space exactly at positions 4, 9, 14, ... (i % 5 == 4) |
| AddCard.GroupDigitsPrefix | src/components/AddCardModal.tsx:91-92 | the first 5m-1 characters of the grouped digits are the grouped first 4m digits, so cutting at 19 characters keeps whole groups |
| AddCard.FormatCardNumber | src/components/AddCardModal.tsx:87-93 | at most 19 characters, all digits or spaces; spaces exactly at positions i % 5 == 4; deleting the spaces gives the first 16 digits of the input; one space per four digits after the first and the last character a digit, so no trailing space |
| AddCard.FormatExpiryDate | src/components/AddCardModal.tsx:95-103 | at most 5 characters; with two or more digits, the first two digits, '/', then digits; deleting the '/' gives the first four digits of the input; with fewer than two digits, the digits |
| AddCard.PatternNotBlank | src/components/AddCardModal.tsx:45 | a string matching `\d\d/\d\d` is not blank |
| AddCard.FormattedExpiryMatches | src/components/AddCardModal.tsx:95-103 | with four or more digits the formatted expiry matches `\d\d/\d\d` |
| AddCard.Validate | src/components/AddCardModal.tsx:34-55 | one error per failing field, each iff its condition: blank name, blank or short card number, expiry not matching, missing type |
| AddCard.ValidImpliesEnabled | src/components/AddCardModal.tsx:105-108 | a form that validates has its button enabled |
| AddCard.NewCard | src/components/AddCardModal.tsx:60-67 | lastFour is the number's last four characters, the name is trimmed, isDefault is false |
| AddCard.AddCardForm.constructor | src/components/AddCardModal.tsx:21-25 | all fields and errors empty |
| AddCard.AddCardForm.ValidateForm | src/components/AddCardModal.tsx:34-55 | stores `Validate` of the fields and reports success iff there is no error |
| AddCard.AddCardForm.ChangeCardNumber | src/components/AddCardModal.tsx:160-166 | the number is stored with every whitespace character removed and a shown number error is blanked |
| AddCard.AddCardForm.HandleClose | src/components/AddCardModal.tsx:78-85 | all fields and errors are cleared |
| AddCard.AddCardForm.HandleSubmit | src/components/AddCardModal.tsx:57-76 | none iff validation fails, with the errors stored and fields kept; otherwise `NewCard` of the fields, then cleared |
| ProfileForm.ValidateUsername | src/components/ProfileForm.tsx:21-48 | the checks run on the trimmed name in order: empty, length 1, over 50, character set; success iff 2..50 allowed characters, returning the trimmed name |
| ProfileForm.TrimIdempotent | src/components/ProfileForm.tsx:22 | trimming twice is trimming once |
| ProfileForm.SavedNameRevalidates | src/components/ProfileForm.tsx:21-48 | a saved name passes validation again unchanged |
| ProfileForm.EnabledSaveChangesName | src/components/ProfileForm.tsx:90 | with Save enabled, a valid save always changes the name |
| ProfileForm.UsernameEditor.constructor | src/components/ProfileForm.tsx:18-19 | the input starts as the current name with no error |
| ProfileForm.UsernameEditor.HandleSave | src/components/ProfileForm.tsx:21-48 | a valid name is saved trimmed with the error cleared; otherwise nothing is saved and the first failing message is shown |
| ProfileForm.UsernameEditor.HandleCancel | src/components/ProfileForm.tsx:50-54 | the input returns to the current name and the error is cleared |
| ProfileForm.UsernameEditor.Type | src/components/ProfileForm.tsx:70-73 | the typed value is stored and the error cleared |
| Formatters.TypeValue | src/types/enums.ts:2-7 | every transaction type's string value is a known type string |
| Formatters.FormatTransactionType | src/utils/formatters.ts:34-47 | "expense", "settlement", "group_created" and "group_joined" become "Expense", "Settlement", "Group Created" and "Group Joined"; anything else is returned unchanged |
| Formatters.LabelsDistinct | src/utils/formatters.ts:34-47 | different transaction types get different labels |
| Formatters.ElapsedOf | src/utils/formatters.ts:54-70 | 'just now' iff under 60 s; otherwise the largest of minute, hour, day whose count is at least 1, with count units <= elapsed < count+1 units |
| Formatters.NotificationTimeReadsBack | src/utils/formatters.ts:54-70 | the text reads back as exactly the elapsed count and unit |
| Formatters.FormatNotificationTime | src/utils/formatters.ts:54-70 | "Just now" exactly below 60 seconds; otherwise a text ending in " ago" |
| Formatters.ChunkOnlyAddsSpaces | src/utils/formatters.ts:77 | inserting a space after every four characters adds nothing but whitespace |
| Formatters.ChunkSpaces | src/utils/formatters.ts:77 | on a space-free input whose characters all match `.`, the inserted spaces sit exactly after each group of four characters and no other whitespace occurs |
| Formatters.FormatCardNumber | src/utils/formatters.ts:76-78 | the non-whitespace characters are kept in order and the result neither starts nor ends with whitespace; for a space-free input with no line terminator the whitespace is exactly a ' ' at each of the positions 4, 9, 14, … |
| Formatters.CardNumberRoundTrip | src/utils/formatters.ts:76-78 | for input without whitespace, deleting the spaces of the output returns the input |
| Formatters.FormatCardDisplay | src/utils/formatters.ts:80-83 | the card type, then " •••• ", then the last four characters, each stated as a slice |
| Formatters.DisplayNeedsOnlyLastFour | src/utils/formatters.ts:80-83 | the display depends on the card number only through its last four characters |
| Formatters.FormatPaymentStatus | src/utils/formatters.ts:104-112 | 'Overdue' iff d < 0, 'Due Today' iff d = 0, 'Due Tomorrow' iff d = 1 |
| Formatters.PaymentStatusReadsBack | src/utils/formatters.ts:104-112 | from two days on the text is "Due in ", the day count, which reads back exactly, then " days" |
| Formatters.NextPaymentDate | src/utils/formatters.ts:85-102 | from the last payment, or today without one: weekly adds 7 days, monthly and yearly take the calendar step, and an unknown frequency leaves the date |
| BillsStorage.FindIndex | src/services/billsStorageService.ts:47 | the index of the first bill with the id, or -1 when there is none |
| BillsStorage.BillsStore.constructor | src/services/billsStorageService.ts:27-43 | the store holds the given stored value |
| BillsStorage.BillsStore.GetBills | src/services/billsStorageService.ts:27-43 | the stored bills, or the empty list when nothing is stored or parsing fails |
| BillsStorage.BillsStore.SaveBill | src/services/billsStorageService.ts:7-25 | exactly one bill appended; it copies the data, its next date is the requested one, it has no last payment and is active |
| BillsStorage.BillsStore.UpdateBillPayment | src/services/billsStorageService.ts:45-57 | an unknown id leaves storage untouched; otherwise only the first bill with the id is paid now with its next date advanced by its frequency |
| BillsStorage.BillsStore.DeleteBill | src/services/billsStorageService.ts:59-63 | every bill with the id is removed and the rest kept in order |
| RecurringBillModal.Validate | src/components/RecurringBillModal.tsx:60-89 | one error per failing field, each iff its condition: blank receiver, blank description, missing or non-positive amount, missing date, missing method, missing frequency |
| RecurringBillModal.EnabledIffValidAndNotPlaceholder | src/components/RecurringBillModal.tsx:146-153 | the button is enabled iff validation passes and the method is not the 'add-card' placeholder |
| RecurringBillModal.Payload | src/components/RecurringBillModal.tsx:94-101 | the submitted data has trimmed receiver and description and the other fields as entered |
| RecurringBillModal.PaymentMethodOptions | src/components/RecurringBillModal.tsx:129-137 | one choice per saved card with the card's id and the caption `FormatCardDisplay` of its last four digits and type, or only the 'add-card' placeholder without cards |
| RecurringBillModal.BillForm.constructor | src/components/RecurringBillModal.tsx:25-32 | all fields empty, no errors, no saved cards |
| RecurringBillModal.BillForm.DefaultDate | src/components/RecurringBillModal.tsx:51-55 | a missing date defaults to today; a chosen one is kept |
| RecurringBillModal.BillForm.ValidateForm | src/components/RecurringBillModal.tsx:60-89 | stores `Validate` of the fields and reports success iff there is no error |
| RecurringBillModal.BillForm.HandleClose | src/components/RecurringBillModal.tsx:107-116 | every field and the errors are reset |
| RecurringBillModal.BillForm.HandleSubmit | src/components/RecurringBillModal.tsx:91-105 | none iff validation fails, with the fields kept; otherwise the payload of a positive amount and non-blank names, then every field is reset; on failure the errors are `Validate` of the old fields |
| RecurringBillModal.BillForm.HandleCardAdded | src/components/RecurringBillModal.tsx:122-126 | the new card is appended and selected |
| InviteFriends.ValidateEmail | src/components/InviteFriendsModal.tsx:39-42 | an accepted address has no whitespace, exactly one '@', not first, and a domain with an inner '.' |
| InviteFriends.AcceptedMatchesPattern | src/components/InviteFriendsModal.tsx:40 | every accepted address matches `^[^\s@]+@[^\s@]+\.[^\s@]+$` |
| InviteFriends.SplitIsAccepted | src/components/InviteFriendsModal.tsx:40 | every split the pattern allows is accepted |
| InviteFriends.ValidateEmailMatchesPattern | src/components/InviteFriendsModal.tsx:39-42 | the check accepts exactly the strings the regular expression matches |
| InviteFriends.SendInvite | src/components/InviteFriendsModal.tsx:52-63 | 'Email address is required' iff the trimmed input is empty; 'Please enter a valid email address' iff it is non-empty and invalid; otherwise the trimmed address is sent |
| InviteFriends.SentAddressMatches | src/components/InviteFriendsModal.tsx:53-63 | a sent address matches the pattern and is the input trimmed |
| SearchFilters.FilterTransactions | src/components/History.tsx:64-76 | a blank trimmed query returns the list unchanged; otherwise a transaction is kept iff the lowercased untrimmed query occurs in its description, group name, payer or a split member, each kept transaction as many times as the list holds it; always a subsequence |
| SearchFilters.DescriptionMatchIsFound | src/components/History.tsx:68-69 | a transaction whose description contains the query is always found |
| SearchFilters.FilterGroups | src/components/Groups.tsx:53-58 | a group is kept iff the lowercased query occurs in its name or a member, as many times as the list holds it; a subsequence, no longer than the list (the counter shows filtered <= total) |
| SearchFilters.EmptyQueryKeepsAllGroups | src/components/Groups.tsx:53-58 | an empty query keeps every group |
| SearchFilters.ShorterQueryKeepsGroup | src/components/Groups.tsx:53-58 | a group found by a query is found by every prefix of it |
| GroupCards.BalanceColor | src/components/GroupCard.tsx:20-24 | green iff the balance is positive, red iff negative, gray iff zero |
| GroupCards.BalanceText | src/components/GroupCard.tsx:26-39 | no text iff there is no activity; settled when within a cent or all settled; otherwise owed for a positive balance and owe with the magnitude for a negative one |
| GroupCards.GroupCardText | src/components/GroupCard.tsx:26-39 | no text iff the group has no activity |
| GroupCards.ColorMatchesText | src/components/GroupCard.tsx:20-39 | with activity not all settled, a gray card reads settled, a green one owed and a red one owe |
| GroupCards.ComputedSettledGroupIsGray | src/components/GroupCard.tsx:17-33 | for a group as the balance engine computes it, all-settled activity means balance 0, so the card is gray and reads settled |
| GroupCards.SimpleCardTextAsWritten | src/components/SimpleGroupCard.tsx:26-37 | no text iff there is no activity; the texts carry the emoji as spelled in the file |
| GroupCards.SimpleCardEmojiAreMojibake | src/components/SimpleGroupCard.tsx:30-34 | each emoji as spelled is GroupCard's emoji encoded in UTF-8 and read back as Windows-1252 |
| GroupCards.SimpleCardDiffersFromGroupCard | src/components/SimpleGroupCard.tsx:29-31 | a settled group with activity shows a different text than on GroupCard |
| GroupCards.SimpleCardText | src/components/SimpleGroupCard.tsx:26-37 | with the intended emoji the text equals GroupCard's for every group |

## Left out

- Persistence is not modelled. This covers the JSON mirror of the store's
  fields, the saved-cards list of the card form and the bill modal, and the
  `Date` to string round trip of stored bills. Storage is the value of a field.
- Floating point is not modelled: money is an exact `real`. `formatCurrency`
  and the `Intl` date formatting are parameters or left out.
- The clock, random user names and avatars (`createNewUser`) and generated
  ids are parameters.
- The calendar steps of "monthly" and "yearly" in `formatNextPaymentDate`
  are function parameters. Only the weekly step is arithmetic on day numbers.
- Timers and async are left out: the invite's delay, the notification's
  auto-hide and the payment simulation.
- Presentation is left out: layout, badges, icons and colours other than
  the group card's.
- The hook operations that components call but the hook never defines
  (`deleteGroup`, `deleteAllGroups`, `removeMemberFromGroup`,
  `markMemberAsSettled`, `clearGroupActivity`, `simulateReferralAcceptance`)
  are left out. No behaviour exists to model.
- The rename rewrite is modelled standalone. The profile page only calls
  `updateUser`, and nothing calls the rewrite.
- The hook's `isLoading` flag and `updateSummary` are left out: they carry
  no logic.
- Case mapping is ASCII only. `toLowerCase` on other letters is not modelled.
- Lengths count Unicode scalar values, not UTF-16 code units. They differ
  only for characters outside the Basic Multilingual Plane.
- Number inputs hold a number or nothing. Partially typed strings such as
  "1." are not modelled.
- `console.log` and `console.error` calls are left out.
- UserService.UpdateUsername: the e-mail's local part is stated through its
  properties (no whitespace, no capitals, no longer than the name) and the
  plain-name case, not character by character against `toLowerCase`.
- ProfileStats.PreviousMonth: the one-month-earlier property is stated for
  months 0 to 11, the range `getMonth` returns.

## Findings

| source | as written | input that shows it | evidently intended | confidence | as-written member | corrected member |
|---|---|---|---|---|---|---|
| src/components/SimpleGroupCard.tsx:30-34 | the three status texts start with "ðŸ”¥", "ðŸ¤©" and "â˜¹ï¸", GroupCard's emoji encoded in UTF-8 and misread as Windows-1252 | any group with activity and a balance within a cent of zero: SimpleGroupCard shows "ðŸ”¥ All settled up" where GroupCard shows the fire emoji | the same emoji as GroupCard.tsx:32-36 | high; not executed | GroupCards.SimpleCardTextAsWritten | GroupCards.SimpleCardText |
