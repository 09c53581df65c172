/** `updateUsernameInData` of src/utils/usernameUpdater.ts: after the user
    renames themself, every occurrence of the old name among payers, split
    lists, group members and member details is replaced by the new one. The
    source's `console.log` calls are not modelled. */
module UsernameUpdater {
  import opened Wrappers
  import opened Schema
  import opened Balances

  datatype UsernameUpdateResult = UsernameUpdateResult(
    updatedTransactions: seq<Transaction>,
    updatedGroups: seq<Group>)

  /** `names.map(member => member === oldName ? newName : member)`. */
  function RenameAll(names: seq<string>, oldName: string, newName: string): (r: seq<string>)
    ensures |r| == |names|
    ensures oldName != newName ==> oldName !in r
    ensures oldName in names ==> newName in r
    ensures forall x :: x in r ==> x in names || x == newName
  {
    var r := seq(|names|, i requires 0 <= i < |names| => if names[i] == oldName then newName else names[i]);
    assert forall k :: 0 <= k < |names| && names[k] == oldName ==> r[k] == newName;
    r
  }

  /** One transaction (usernameUpdater.ts:18-32): the payer is renamed, and
      the split list is rewritten only when it includes the old name. */
  function RenameTransaction(t: Transaction, oldName: string, newName: string): Transaction
  {
    t.(paidBy := if t.paidBy == Some(oldName) then Some(newName) else t.paidBy,
       splitBetween := if InSplit(t, oldName) then Some(RenameAll(t.splitBetween.value, oldName, newName))
                       else t.splitBetween)
  }

  function RenameDetail(d: GroupMember, oldName: string, newName: string): GroupMember {
    if d.name == oldName then d.(name := newName) else d
  }

  function RenameDetails(ds: seq<GroupMember>, oldName: string, newName: string): seq<GroupMember> {
    seq(|ds|, i requires 0 <= i < |ds| => RenameDetail(ds[i], oldName, newName))
  }

  /** One group (usernameUpdater.ts:37-55): members are rewritten when they
      include the old name; member details, when present, always. */
  function RenameGroup(g: Group, oldName: string, newName: string): Group
  {
    g.(members := if oldName in g.members then RenameAll(g.members, oldName, newName) else g.members,
       memberDetails :=
         if g.memberDetails.None? then None
         else Some(RenameDetails(g.memberDetails.value, oldName, newName)))
  }

  function RenameTransactions(ts: seq<Transaction>, oldName: string, newName: string): seq<Transaction> {
    seq(|ts|, i requires 0 <= i < |ts| => RenameTransaction(ts[i], oldName, newName))
  }

  function RenameGroups(groups: seq<Group>, oldName: string, newName: string): seq<Group> {
    seq(|groups|, i requires 0 <= i < |groups| => RenameGroup(groups[i], oldName, newName))
  }

  /** `updateUsernameInData(oldUsername, newUsername, transactions, groups)`:
      lists keep their length and order, only the name-carrying fields
      change, and (for a real rename) the old name no longer appears. */
  function UpdateUsernameInData(oldUsername: string, newUsername: string,
                                transactions: seq<Transaction>, groups: seq<Group>): (r: UsernameUpdateResult)
    ensures |r.updatedTransactions| == |transactions| && |r.updatedGroups| == |groups|
    ensures forall i :: 0 <= i < |transactions| ==>
      var u := r.updatedTransactions[i];
      && u.(paidBy := transactions[i].paidBy, splitBetween := transactions[i].splitBetween) == transactions[i]
      && (transactions[i].paidBy == Some(oldUsername) ==> u.paidBy == Some(newUsername))
      && (InSplit(transactions[i], oldUsername) ==> InSplit(u, newUsername))
      && (u.splitBetween.Some? <==> transactions[i].splitBetween.Some?)
      && (u.splitBetween.Some? ==> |u.splitBetween.value| == |transactions[i].splitBetween.value|)
    ensures forall i :: 0 <= i < |groups| ==>
      var g := r.updatedGroups[i];
      && g.(members := groups[i].members, memberDetails := groups[i].memberDetails) == groups[i]
      && |g.members| == |groups[i].members|
      && (g.memberDetails.Some? <==> groups[i].memberDetails.Some?)
    ensures oldUsername != newUsername ==>
      && (forall i :: 0 <= i < |transactions| ==>
            r.updatedTransactions[i].paidBy != Some(oldUsername) && !InSplit(r.updatedTransactions[i], oldUsername))
      && (forall i :: 0 <= i < |groups| ==> oldUsername !in r.updatedGroups[i].members)
  {
    UsernameUpdateResult(RenameTransactions(transactions, oldUsername, newUsername),
                         RenameGroups(groups, oldUsername, newUsername))
  }

  /** Renaming a user to their own name changes nothing. */
  lemma RenameToSelfIsIdentity(name: string, transactions: seq<Transaction>, groups: seq<Group>)
    ensures UpdateUsernameInData(name, name, transactions, groups) == UsernameUpdateResult(transactions, groups)
  {
    var r := UpdateUsernameInData(name, name, transactions, groups);
    forall i | 0 <= i < |transactions|
      ensures r.updatedTransactions[i] == transactions[i]
    {
      var t := transactions[i];
      if InSplit(t, name) {
        assert RenameAll(t.splitBetween.value, name, name) == t.splitBetween.value;
      }
    }
    forall i | 0 <= i < |groups|
      ensures r.updatedGroups[i] == groups[i]
    {
      var g := groups[i];
      assert RenameAll(g.members, name, name) == g.members;
      if g.memberDetails.Some? {
        var ds := g.memberDetails.value;
        assert RenameDetails(ds, name, name) == ds;
      }
    }
  }

  /** The rename is made in place, entry by entry: other payers stay, each
      split entry and each member equal to the old name becomes the new one
      and every other entry stays, member details keep their order and
      `settled` flags, and (for a real rename) no member detail keeps the
      old name. */
  lemma RenameIsPointwise(oldName: string, newName: string, transactions: seq<Transaction>, groups: seq<Group>)
    ensures var r := UpdateUsernameInData(oldName, newName, transactions, groups);
      forall i :: 0 <= i < |transactions| && transactions[i].paidBy != Some(oldName) ==>
        r.updatedTransactions[i].paidBy == transactions[i].paidBy
    ensures var r := UpdateUsernameInData(oldName, newName, transactions, groups);
      forall i, k :: 0 <= i < |transactions| && transactions[i].splitBetween.Some?
                     && 0 <= k < |transactions[i].splitBetween.value| ==>
        r.updatedTransactions[i].splitBetween.value[k] ==
          (if transactions[i].splitBetween.value[k] == oldName then newName else transactions[i].splitBetween.value[k])
    ensures var r := UpdateUsernameInData(oldName, newName, transactions, groups);
      forall i, k :: 0 <= i < |groups| && 0 <= k < |groups[i].members| ==>
        r.updatedGroups[i].members[k] == (if groups[i].members[k] == oldName then newName else groups[i].members[k])
    ensures var r := UpdateUsernameInData(oldName, newName, transactions, groups);
      forall i :: 0 <= i < |groups| && groups[i].memberDetails.Some? ==>
        && |r.updatedGroups[i].memberDetails.value| == |groups[i].memberDetails.value|
        && forall k :: 0 <= k < |groups[i].memberDetails.value| ==>
             var d := groups[i].memberDetails.value[k];
             r.updatedGroups[i].memberDetails.value[k] == GroupMember(if d.name == oldName then newName else d.name, d.settled)
    ensures oldName != newName ==> UnusedInGroups(UpdateUsernameInData(oldName, newName, transactions, groups).updatedGroups, oldName)
  {
    var r := UpdateUsernameInData(oldName, newName, transactions, groups);
    forall i, k | 0 <= i < |transactions| && transactions[i].splitBetween.Some?
                  && 0 <= k < |transactions[i].splitBetween.value|
      ensures r.updatedTransactions[i].splitBetween.value[k] ==
          (if transactions[i].splitBetween.value[k] == oldName then newName else transactions[i].splitBetween.value[k])
    {
      if !InSplit(transactions[i], oldName) {
        assert transactions[i].splitBetween.value[k] != oldName;
      }
    }
    forall i, k | 0 <= i < |groups| && 0 <= k < |groups[i].members|
      ensures r.updatedGroups[i].members[k] == (if groups[i].members[k] == oldName then newName else groups[i].members[k])
    {
      if oldName !in groups[i].members {
        assert groups[i].members[k] != oldName;
      }
    }
  }

  /** No transaction mentions `name` as payer or split member. */
  predicate UnusedInTransactions(ts: seq<Transaction>, name: string) {
    forall i :: 0 <= i < |ts| ==> ts[i].paidBy != Some(name) && !InSplit(ts[i], name)
  }

  /** No group lists `name` as member or in its member details. */
  predicate UnusedInGroups(groups: seq<Group>, name: string) {
    forall i :: 0 <= i < |groups| ==>
      && name !in groups[i].members
      && (groups[i].memberDetails.Some? ==>
            forall k :: 0 <= k < |groups[i].memberDetails.value| ==> groups[i].memberDetails.value[k].name != name)
  }

  /** Renaming to a name nobody uses, and back again, restores the data. */
  lemma RenameRoundTrip(oldName: string, newName: string, transactions: seq<Transaction>, groups: seq<Group>)
    requires UnusedInTransactions(transactions, newName) && UnusedInGroups(groups, newName)
    ensures var there := UpdateUsernameInData(oldName, newName, transactions, groups);
      UpdateUsernameInData(newName, oldName, there.updatedTransactions, there.updatedGroups)
        == UsernameUpdateResult(transactions, groups)
  {
    var there := UpdateUsernameInData(oldName, newName, transactions, groups);
    var back := UpdateUsernameInData(newName, oldName, there.updatedTransactions, there.updatedGroups);
    forall i | 0 <= i < |transactions|
      ensures back.updatedTransactions[i] == transactions[i]
    {
      var t := transactions[i];
      if InSplit(t, oldName) {
        var xs := t.splitBetween.value;
        assert RenameAll(RenameAll(xs, oldName, newName), newName, oldName) == xs;
      }
    }
    forall i | 0 <= i < |groups|
      ensures back.updatedGroups[i] == groups[i]
    {
      var g := groups[i];
      if oldName in g.members {
        assert RenameAll(RenameAll(g.members, oldName, newName), newName, oldName) == g.members;
      }
      if g.memberDetails.Some? {
        var ds := g.memberDetails.value;
        assert RenameDetails(RenameDetails(ds, oldName, newName), newName, oldName) == ds;
      }
    }
  }

  /** A renamed transaction contributes to the new name exactly what the
      original contributed to the old name. */
  lemma RenamedContribution(m: Measure, t: Transaction, oldName: string, newName: string, now: Date)
    requires t.paidBy != Some(newName) && !InSplit(t, newName)
    ensures Contribution(m, RenameTransaction(t, oldName, newName), newName, now) == Contribution(m, t, oldName, now)
  {
    var u := RenameTransaction(t, oldName, newName);
    assert InSplit(u, newName) <==> InSplit(t, oldName);
    assert u.paidBy == Some(newName) <==> t.paidBy == Some(oldName);
  }

  lemma {:induction false} RenamedTotal(m: Measure, ts: seq<Transaction>, oldName: string, newName: string, now: Date)
    requires UnusedInTransactions(ts, newName)
    ensures Total(m, RenameTransactions(ts, oldName, newName), newName, now) == Total(m, ts, oldName, now)
  {
    if ts != [] {
      var init := ts[..|ts| - 1];
      var us := RenameTransactions(ts, oldName, newName);
      assert us[..|us| - 1] == RenameTransactions(init, oldName, newName);
      RenamedTotal(m, init, oldName, newName, now);
      RenamedContribution(m, ts[|ts| - 1], oldName, newName, now);
    }
  }

  /** When the new name was unused, the renamed user's financial summary is
      exactly the one they had under the old name. */
  lemma RenamePreservesSummary(oldName: string, newName: string, transactions: seq<Transaction>, groups: seq<Group>, now: Date)
    requires UnusedInTransactions(transactions, newName)
    ensures Summary(UpdateUsernameInData(oldName, newName, transactions, groups).updatedTransactions, newName, now)
         == Summary(transactions, oldName, now)
  {
    RenamedTotal(Owe, transactions, oldName, newName, now);
    RenamedTotal(Owed, transactions, oldName, newName, now);
    RenamedTotal(Spending, transactions, oldName, newName, now);
  }
}
