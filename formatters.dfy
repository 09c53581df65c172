/** The pure helpers of src/utils/formatters.ts that do not depend on
    floating-point or locale formatting. Time differences come in already
    measured: elapsed seconds for notifications, whole days for payment
    status, and dates as day numbers for the next payment. */
module Formatters {
  import opened Wrappers
  import opened Schema
  import opened Strings

  /** The string value of each `TransactionType` (src/types/enums.ts:2-7). */
  function TypeValue(kind: TransactionType): (r: string)
    ensures r in KnownTypes
  {
    match kind
    case Expense => "expense"
    case Settlement => "settlement"
    case GroupCreated => "group_created"
    case GroupJoined => "group_joined"
  }

  const KnownTypes: set<string> := {"expense", "settlement", "group_created", "group_joined"}

  /** `formatTransactionType(type)` (formatters.ts:34-47): a label for each
      transaction type, anything else unchanged. */
  function FormatTransactionType(kind: string): (r: string)
    ensures kind in KnownTypes ==> r != kind && r != []
    ensures kind == "expense" ==> r == "Expense"
    ensures kind == "settlement" ==> r == "Settlement"
    ensures kind == "group_created" ==> r == "Group Created"
    ensures kind == "group_joined" ==> r == "Group Joined"
    ensures kind !in KnownTypes ==> r == kind
  {
    if kind == "expense" then "Expense"
    else if kind == "settlement" then "Settlement"
    else if kind == "group_created" then "Group Created"
    else if kind == "group_joined" then "Group Joined"
    else kind
  }

  /** Different transaction types never share a label. */
  lemma LabelsDistinct(a: TransactionType, b: TransactionType)
    requires FormatTransactionType(TypeValue(a)) == FormatTransactionType(TypeValue(b))
    ensures a == b
  {
  }

  /** How long ago something happened, as the notification list says it. */
  datatype Elapsed = JustNow | Ago(count: nat, unit: char)

  function UnitSeconds(unit: char): nat {
    if unit == 'm' then 60 else if unit == 'h' then 3600 else 86400
  }

  /** The largest unit that fits, with the whole number of such units. */
  function ElapsedOf(diffInSeconds: int): (e: Elapsed)
    ensures e == JustNow <==> diffInSeconds < 60
    ensures e.Ago? ==>
      && e.unit in {'m', 'h', 'd'} && e.count >= 1
      && e.count * UnitSeconds(e.unit) <= diffInSeconds < (e.count + 1) * UnitSeconds(e.unit)
    ensures e.Ago? && e.unit == 'm' ==> e.count < 60
    ensures e.Ago? && e.unit == 'h' ==> e.count < 24
  {
    if diffInSeconds < 60 then JustNow
    else if diffInSeconds < 3600 then Ago(diffInSeconds / 60, 'm')
    else if diffInSeconds < 86400 then Ago(diffInSeconds / 3600, 'h')
    else Ago(diffInSeconds / 86400, 'd')
  }

  /** `formatNotificationTime` (formatters.ts:54-70) on the elapsed seconds. */
  function FormatNotificationTime(diffInSeconds: int): (r: string)
    ensures r == "Just now" <==> diffInSeconds < 60
    ensures diffInSeconds >= 60 ==> |r| >= 6 && r[|r| - 4..] == " ago"
  {
    if diffInSeconds < 60 then "Just now"
    else
      var r := if diffInSeconds < 3600 then NatToString(diffInSeconds / 60) + "m ago"
        else if diffInSeconds < 86400 then NatToString(diffInSeconds / 3600) + "h ago"
        else NatToString(diffInSeconds / 86400) + "d ago";
      assert r[|r| - 1] == 'o' && "Just now"[7] == 'w';
      r
  }

  /** Reading a notification time back. */
  function ParseElapsed(r: string): Option<Elapsed> {
    if r == "Just now" then Some(JustNow)
    else if |r| >= 6 && r[|r| - 4..] == " ago" && AllDigits(r[..|r| - 5]) then
      Some(Ago(ParseNat(r[..|r| - 5]), r[|r| - 5]))
    else None
  }

  /** The text states exactly the elapsed count and unit. */
  lemma NotificationTimeReadsBack(diffInSeconds: int)
    ensures ParseElapsed(FormatNotificationTime(diffInSeconds)) == Some(ElapsedOf(diffInSeconds))
  {
    var e := ElapsedOf(diffInSeconds);
    if e.Ago? {
      var digits := NatToString(e.count);
      var r := digits + [e.unit] + " ago";
      assert FormatNotificationTime(diffInSeconds) == r;
      assert r[..|r| - 5] == digits;
      ParseNatToString(e.count);
    }
  }

  /** `s` contains no line terminator, so `.` matches each of its characters. */
  predicate DotMatchesAll(s: string) {
    forall i :: 0 <= i < |s| ==> !IsLineTerminator(s[i])
  }

  /** `replace(/(.{4})/g, '$1 ')`: every run of four characters matched by
      `.` gets a space after it; the regular expression restarts one
      character further on where a run is interrupted by a line terminator. */
  function ChunkByFour(s: string): string
    decreases |s|
  {
    if |s| >= 4 && DotMatchesAll(s[..4]) then s[..4] + " " + ChunkByFour(s[4..])
    else if s == [] then []
    else [s[0]] + ChunkByFour(s[1..])
  }

  /** Chunking only inserts spaces. */
  lemma {:induction false} ChunkOnlyAddsSpaces(s: string)
    ensures RemoveSpaces(ChunkByFour(s)) == RemoveSpaces(s)
    decreases |s|
  {
    if |s| >= 4 && DotMatchesAll(s[..4]) {
      ChunkOnlyAddsSpaces(s[4..]);
      ChunkBlockStep(s);
    } else if s != [] {
      ChunkOnlyAddsSpaces(s[1..]);
      ChunkCharStep(s);
    }
  }

  lemma ChunkBlockStep(s: string)
    requires |s| >= 4 && DotMatchesAll(s[..4])
    requires RemoveSpaces(ChunkByFour(s[4..])) == RemoveSpaces(s[4..])
    ensures RemoveSpaces(ChunkByFour(s)) == RemoveSpaces(s)
  {
    var a := s[..4];
    assert ChunkByFour(s) == a + " " + ChunkByFour(s[4..]);
    RemoveSpacesAroundSpace(a, ChunkByFour(s[4..]));
    RemoveSpacesConcat(a, s[4..]);
    assert s == a + s[4..];
  }

  lemma ChunkCharStep(s: string)
    requires s != [] && !(|s| >= 4 && DotMatchesAll(s[..4]))
    requires RemoveSpaces(ChunkByFour(s[1..])) == RemoveSpaces(s[1..])
    ensures RemoveSpaces(ChunkByFour(s)) == RemoveSpaces(s)
  {
    assert ChunkByFour(s) == [s[0]] + ChunkByFour(s[1..]);
    RemoveSpacesConcat([s[0]], ChunkByFour(s[1..]));
    RemoveSpacesConcat([s[0]], s[1..]);
    assert s == [s[0]] + s[1..];
  }

  /** Fewer than four characters are left as they are. */
  lemma {:induction false} ChunkShort(s: string)
    requires |s| < 4
    ensures ChunkByFour(s) == s
    decreases |s|
  {
    if s != [] {
      ChunkShort(s[1..]);
      assert s == [s[0]] + s[1..];
    }
  }

  /** For input without whitespace or line terminators, the chunked text
      starts like the input and has a space exactly after every four
      characters. */
  lemma {:induction false} ChunkSpaces(s: string)
    requires NoSpace(s) && DotMatchesAll(s)
    ensures s != [] ==> |ChunkByFour(s)| > 0 && ChunkByFour(s)[0] == s[0]
    ensures forall i :: 0 <= i < |ChunkByFour(s)| ==>
      (ChunkByFour(s)[i] == ' ' <==> i % 5 == 4) && (IsSpace(ChunkByFour(s)[i]) <==> i % 5 == 4)
    decreases |s|
  {
    var c := ChunkByFour(s);
    if |s| >= 4 {
      assert DotMatchesAll(s[..4]);
      var rest := ChunkByFour(s[4..]);
      ChunkSpaces(s[4..]);
      assert c == s[..4] + " " + rest;
      forall i | 0 <= i < |c|
        ensures (c[i] == ' ' <==> i % 5 == 4) && (IsSpace(c[i]) <==> i % 5 == 4)
      {
        if i >= 5 {
          assert c[i] == rest[i - 5];
          ModFiveShift(i);
        } else if i < 4 {
          assert c[i] == s[i] && i % 5 == i;
        } else {
          assert c[i] == ' ';
        }
      }
    } else {
      ChunkShort(s);
      forall i | 0 <= i < |c|
        ensures (c[i] == ' ' <==> i % 5 == 4) && (IsSpace(c[i]) <==> i % 5 == 4)
      {
        assert c[i] == s[i] && i % 5 == i;
      }
    }
  }

  /** `formatCardNumber(cardNumber)` (formatters.ts:76-78). */
  function FormatCardNumber(cardNumber: string): (r: string)
    ensures RemoveSpaces(r) == RemoveSpaces(cardNumber)
    ensures r == [] || (!IsSpace(r[0]) && !IsSpace(r[|r| - 1]))
    ensures NoSpace(cardNumber) && DotMatchesAll(cardNumber) ==>
      forall i :: 0 <= i < |r| ==> (r[i] == ' ' <==> i % 5 == 4) && (IsSpace(r[i]) <==> i % 5 == 4)
  {
    var chunked := ChunkByFour(cardNumber);
    ChunkOnlyAddsSpaces(cardNumber);
    RemoveSpacesTrim(chunked);
    TrimEnds(chunked);
    var r := Trim(chunked);
    assert NoSpace(cardNumber) && DotMatchesAll(cardNumber) ==>
      forall i :: 0 <= i < |r| ==> (r[i] == ' ' <==> i % 5 == 4) && (IsSpace(r[i]) <==> i % 5 == 4)
    by {
      if NoSpace(cardNumber) && DotMatchesAll(cardNumber) {
        ChunkSpaces(cardNumber);
        assert TrimStart(chunked) == chunked;
        assert r == chunked[..|r|];
        forall i | 0 <= i < |r|
          ensures (r[i] == ' ' <==> i % 5 == 4) && (IsSpace(r[i]) <==> i % 5 == 4)
        {
          assert r[i] == chunked[i];
        }
      }
    }
    r
  }

  /** For a card number without whitespace, removing the spaces from the
      formatted number gives the number back. */
  lemma CardNumberRoundTrip(cardNumber: string)
    requires NoSpace(cardNumber)
    ensures RemoveSpaces(FormatCardNumber(cardNumber)) == cardNumber
  {
  }

  const Mask: string := " •••• "

  /** `formatCardDisplay(cardNumber, cardType)` (formatters.ts:80-83): the
      type, a mask and the last four characters. */
  function FormatCardDisplay(cardNumber: string, cardType: string): (r: string)
    ensures |r| == |cardType| + |Mask| + |TakeLast(cardNumber, 4)|
    ensures r[..|cardType|] == cardType
    ensures r[|cardType|..|cardType| + |Mask|] == Mask
    ensures r[|cardType| + |Mask|..] == TakeLast(cardNumber, 4)
  {
    var lastFour := TakeLast(cardNumber, 4);
    assert (cardType + Mask + lastFour)[..|cardType|] == cardType;
    assert (cardType + Mask + lastFour)[|cardType|..|cardType| + |Mask|] == Mask;
    cardType + Mask + lastFour
  }

  /** The display only needs the last four characters, so a stored card's
      `lastFour` displays exactly like its full number. */
  lemma DisplayNeedsOnlyLastFour(cardNumber: string, cardType: string)
    ensures FormatCardDisplay(TakeLast(cardNumber, 4), cardType) == FormatCardDisplay(cardNumber, cardType)
  {
    assert TakeLast(TakeLast(cardNumber, 4), 4) == TakeLast(cardNumber, 4);
  }

  /** `formatPaymentStatus` (formatters.ts:104-112) on the whole-day
      difference between the payment date and today. */
  function FormatPaymentStatus(diffDays: int): (r: string)
    ensures r == "Overdue" <==> diffDays < 0
    ensures r == "Due Today" <==> diffDays == 0
    ensures r == "Due Tomorrow" <==> diffDays == 1
  {
    if diffDays < 0 then "Overdue"
    else if diffDays == 0 then "Due Today"
    else if diffDays == 1 then "Due Tomorrow"
    else
      var r := "Due in " + NatToString(diffDays) + " days";
      assert r[4] == 'i';
      r
  }

  /** For two days or more the text carries the day count, readable back. */
  lemma PaymentStatusReadsBack(diffDays: int)
    requires diffDays >= 2
    ensures |FormatPaymentStatus(diffDays)| > 12
    ensures FormatPaymentStatus(diffDays)[..7] == "Due in "
    ensures FormatPaymentStatus(diffDays)[|FormatPaymentStatus(diffDays)| - 5..] == " days"
    ensures AllDigits(FormatPaymentStatus(diffDays)[7..|FormatPaymentStatus(diffDays)| - 5])
    ensures ParseNat(FormatPaymentStatus(diffDays)[7..|FormatPaymentStatus(diffDays)| - 5]) == diffDays
  {
    var digits := NatToString(diffDays);
    var r := "Due in " + digits + " days";
    assert r[..7] == "Due in ";
    assert r[|r| - 5..] == " days";
    assert r[7..|r| - 5] == digits;
    ParseNatToString(diffDays);
  }

  /** `formatNextPaymentDate(lastPaid, frequency)` (formatters.ts:85-102) on
      day numbers: the base is the last payment, or today when there is
      none; a week is seven days; the calendar steps for a month and a year
      are given as functions; an unknown frequency leaves the base. */
  function NextPaymentDate(lastPaid: Option<int>, frequency: string, today: int,
                           addMonth: int -> int, addYear: int -> int): (d: int)
    ensures frequency == "weekly" ==> d == lastPaid.GetOr(today) + 7
    ensures frequency == "monthly" ==> d == addMonth(lastPaid.GetOr(today))
    ensures frequency == "yearly" ==> d == addYear(lastPaid.GetOr(today))
    ensures frequency !in {"weekly", "monthly", "yearly"} ==> d == lastPaid.GetOr(today)
  {
    var baseDate := if lastPaid.Some? then lastPaid.value else today;
    if frequency == "weekly" then baseDate + 7
    else if frequency == "monthly" then addMonth(baseDate)
    else if frequency == "yearly" then addYear(baseDate)
    else baseDate
  }
}
