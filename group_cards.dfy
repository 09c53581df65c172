/** The balance line of the two group cards, src/components/GroupCard.tsx and
    src/components/SimpleGroupCard.tsx: whether a group shows a status, which
    of "settled", "owed" and "owe" it shows, and the colour. Both cards
    compute the same decision; they differ in the emoji at the head of each
    text. `formatCurrency` is a parameter. */
module GroupCards {
  import opened Wrappers
  import opened Schema
  import Balances

  /** `hasActivity`: the group has a non-empty expense list. */
  predicate HasActivity(g: Group) {
    g.expenses.Some? && |g.expenses.value| > 0
  }

  function Abs(x: real): real {
    if x < 0.0 then -x else x
  }

  /** `hasBalance`: the balance is further than one cent from zero. */
  predicate HasBalance(g: Group) {
    Abs(g.totalBalance) > 0.01
  }

  /** `allActivitiesSettled`: there is activity and all of it is SETTLED. */
  predicate AllSettled(g: Group) {
    HasActivity(g) && forall i :: 0 <= i < |g.expenses.value| ==> IsSettled(g.expenses.value[i])
  }

  datatype Color = Green | Red | Gray

  /** `getBalanceColor` (GroupCard.tsx:20-24, SimpleGroupCard.tsx:20-24):
      by the sign of the balance alone. */
  function BalanceColor(g: Group): (c: Color)
    ensures c == Green <==> g.totalBalance > 0.0
    ensures c == Red <==> g.totalBalance < 0.0
    ensures c == Gray <==> g.totalBalance == 0.0
  {
    if g.totalBalance > 0.0 then Green
    else if g.totalBalance < 0.0 then Red
    else Gray
  }

  /** The emoji that open the settled, owed and owe texts. */
  datatype Emoji = Emoji(settled: string, owed: string, owe: string)

  /** GroupCard's emoji: U+1F525 (fire), U+1F929 (star-struck), and
      U+2639 U+FE0F (frowning face, emoji presentation). */
  const CardEmoji := Emoji("\U{1F525}", "\U{1F929}", "\U{2639}\U{FE0F}")

  function SettledText(e: Emoji): string {
    e.settled + " All settled up"
  }

  function OwedText(e: Emoji, amount: string): string {
    e.owed + " You are owed " + amount
  }

  function OweText(e: Emoji, amount: string): string {
    e.owe + " You owe " + amount
  }

  /** `getBalanceText` with the given emoji: no text without activity; the
      settled text when the balance is within a cent of zero or everything
      is settled; otherwise the owed text for a positive balance and the
      owe text, with the magnitude, for a negative one. */
  function BalanceText(g: Group, e: Emoji, formatCurrency: real -> string): (r: Option<string>)
    ensures r.None? <==> !HasActivity(g)
    ensures r == Some(SettledText(e)) <== HasActivity(g) && (!HasBalance(g) || AllSettled(g))
    ensures HasActivity(g) && HasBalance(g) && !AllSettled(g) && g.totalBalance > 0.0 ==>
      r == Some(OwedText(e, formatCurrency(g.totalBalance)))
    ensures HasActivity(g) && HasBalance(g) && !AllSettled(g) && g.totalBalance < 0.0 ==>
      r == Some(OweText(e, formatCurrency(-g.totalBalance)))
  {
    if !HasActivity(g) then None
    else if !HasBalance(g) || AllSettled(g) then Some(SettledText(e))
    else if g.totalBalance > 0.0 then Some(OwedText(e, formatCurrency(g.totalBalance)))
    else if g.totalBalance < 0.0 then Some(OweText(e, formatCurrency(Abs(g.totalBalance))))
    else None
  }

  /** GroupCard's `getBalanceText` (GroupCard.tsx:26-39). */
  function GroupCardText(g: Group, formatCurrency: real -> string): (r: Option<string>)
    ensures r.None? <==> !HasActivity(g)
  {
    BalanceText(g, CardEmoji, formatCurrency)
  }

  /** A card shown with activity always has a text, and its colour agrees
      with the text: green exactly for the owed text, red for the owe text,
      and a settled text for every gray card. */
  lemma ColorMatchesText(g: Group, e: Emoji, formatCurrency: real -> string)
    requires HasActivity(g) && !AllSettled(g)
    ensures BalanceColor(g) == Gray ==> BalanceText(g, e, formatCurrency) == Some(SettledText(e))
    ensures HasBalance(g) && BalanceColor(g) == Green ==>
      BalanceText(g, e, formatCurrency) == Some(OwedText(e, formatCurrency(g.totalBalance)))
    ensures HasBalance(g) && BalanceColor(g) == Red ==>
      BalanceText(g, e, formatCurrency) == Some(OweText(e, formatCurrency(-g.totalBalance)))
  {
  }

  /** For a group as `calculateGroupBalances` returns it, all-settled
      activity already means a zero balance, so such a card is gray and
      reads settled. */
  lemma ComputedSettledGroupIsGray(g: Group, ts: seq<Transaction>, user: string, e: Emoji,
                                   formatCurrency: real -> string)
    requires AllSettled(Balances.WithBalance(g, ts, user))
    ensures BalanceColor(Balances.WithBalance(g, ts, user)) == Gray
    ensures BalanceText(Balances.WithBalance(g, ts, user), e, formatCurrency) == Some(SettledText(e))
  {
    var xs := Balances.GroupTransactions(ts, g.name);
    Balances.SettledGroupBalanceIsZero(xs, user);
  }

  // ---- The SimpleGroupCard emoji ----

  /** Windows-1252 reading of one byte; the five bytes that code page leaves
      undefined read as nothing. */
  function Cp1252(b: nat): (r: Option<char>)
    requires IsByte(b)
  {
    if b < 0x80 || b >= 0xA0 then Some(b as char)
    else if b == 0x80 then Some('\U{20AC}')
    else if b == 0x82 then Some('\U{201A}')
    else if b == 0x83 then Some('\U{0192}')
    else if b == 0x84 then Some('\U{201E}')
    else if b == 0x85 then Some('\U{2026}')
    else if b == 0x86 then Some('\U{2020}')
    else if b == 0x87 then Some('\U{2021}')
    else if b == 0x88 then Some('\U{02C6}')
    else if b == 0x89 then Some('\U{2030}')
    else if b == 0x8A then Some('\U{0160}')
    else if b == 0x8B then Some('\U{2039}')
    else if b == 0x8C then Some('\U{0152}')
    else if b == 0x8E then Some('\U{017D}')
    else if b == 0x91 then Some('\U{2018}')
    else if b == 0x92 then Some('\U{2019}')
    else if b == 0x93 then Some('\U{201C}')
    else if b == 0x94 then Some('\U{201D}')
    else if b == 0x95 then Some('\U{2022}')
    else if b == 0x96 then Some('\U{2013}')
    else if b == 0x97 then Some('\U{2014}')
    else if b == 0x98 then Some('\U{02DC}')
    else if b == 0x99 then Some('\U{2122}')
    else if b == 0x9A then Some('\U{0161}')
    else if b == 0x9B then Some('\U{203A}')
    else if b == 0x9C then Some('\U{0153}')
    else if b == 0x9E then Some('\U{017E}')
    else if b == 0x9F then Some('\U{0178}')
    else None
  }

  predicate IsByte(b: nat) {
    b < 256
  }

  /** The UTF-8 encoding of one character. */
  function Utf8(c: char): (r: seq<nat>)
    ensures 1 <= |r| <= 4
    ensures forall i :: 0 <= i < |r| ==> IsByte(r[i])
  {
    var cp := c as int;
    if cp < 0x80 then [cp]
    else if cp < 0x800 then [0xC0 + cp / 0x40, 0x80 + cp % 0x40]
    else if cp < 0x10000 then [0xE0 + cp / 0x1000, 0x80 + cp / 0x40 % 0x40, 0x80 + cp % 0x40]
    else [0xF0 + cp / 0x40000, 0x80 + cp / 0x1000 % 0x40, 0x80 + cp / 0x40 % 0x40, 0x80 + cp % 0x40]
  }

  function Utf8String(s: string): (r: seq<nat>)
    ensures forall i :: 0 <= i < |r| ==> IsByte(r[i])
  {
    if s == [] then [] else Utf8(s[0]) + Utf8String(s[1..])
  }

  /** Bytes read back as Windows-1252 text. */
  function ReadAsCp1252(bytes: seq<nat>): string
    requires forall i :: 0 <= i < |bytes| ==> IsByte(bytes[i])
  {
    if bytes == [] then []
    else
      assert IsByte(bytes[0]);
      match Cp1252(bytes[0])
      case Some(c) => [c] + ReadAsCp1252(bytes[1..])
      case None => ReadAsCp1252(bytes[1..])
  }

  /** Text whose UTF-8 bytes were read back as Windows-1252. */
  function Mojibake(s: string): string {
    ReadAsCp1252(Utf8String(s))
  }

  /** SimpleGroupCard's emoji as its source spells them
      (SimpleGroupCard.tsx:30, 33, 34). */
  const SimpleCardEmojiAsWritten := Emoji(
    "\U{00F0}\U{0178}\U{201D}\U{00A5}",
    "\U{00F0}\U{0178}\U{00A4}\U{00A9}",
    "\U{00E2}\U{02DC}\U{00B9}\U{00EF}\U{00B8}")

  /** SimpleGroupCard's `getBalanceText` as written (SimpleGroupCard.tsx:26-37). */
  function SimpleCardTextAsWritten(g: Group, formatCurrency: real -> string): (r: Option<string>)
    ensures r.None? <==> !HasActivity(g)
  {
    BalanceText(g, SimpleCardEmojiAsWritten, formatCurrency)
  }

  /** Each emoji SimpleGroupCard spells is GroupCard's emoji encoded as UTF-8
      and read back as Windows-1252, so the card shows, say,
      "ðŸ”¥ All settled up" where GroupCard shows the fire emoji. */
  lemma SimpleCardEmojiAreMojibake()
    ensures SimpleCardEmojiAsWritten.settled == Mojibake(CardEmoji.settled)
    ensures SimpleCardEmojiAsWritten.owed == Mojibake(CardEmoji.owed)
    ensures SimpleCardEmojiAsWritten.owe == Mojibake(CardEmoji.owe)
    ensures SimpleCardEmojiAsWritten.settled != CardEmoji.settled
  {
    SettledEmojiMisread();
    OwedEmojiMisread();
    OweEmojiMisread();
    assert SimpleCardEmojiAsWritten.settled[0] != CardEmoji.settled[0];
  }

  lemma SettledEmojiMisread()
    ensures Mojibake("\U{1F525}") == "\U{00F0}\U{0178}\U{201D}\U{00A5}"
  {
    var b := Utf8String("\U{1F525}");
    assert b == Utf8('\U{1F525}') + Utf8String([]);
    assert b == [0xF0, 0x9F, 0x94, 0xA5];
    ReadFour(b);
  }

  lemma OwedEmojiMisread()
    ensures Mojibake("\U{1F929}") == "\U{00F0}\U{0178}\U{00A4}\U{00A9}"
  {
    var b := Utf8String("\U{1F929}");
    assert b == Utf8('\U{1F929}') + Utf8String([]);
    assert b == [0xF0, 0x9F, 0xA4, 0xA9];
    ReadFour(b);
  }

  lemma OweEmojiMisread()
    ensures Mojibake("\U{2639}\U{FE0F}") == "\U{00E2}\U{02DC}\U{00B9}\U{00EF}\U{00B8}"
  {
    var s := "\U{2639}\U{FE0F}";
    var b := Utf8String(s);
    assert Utf8String(s[1..]) == Utf8('\U{FE0F}') + Utf8String([]);
    assert b == Utf8('\U{2639}') + Utf8('\U{FE0F}');
    assert b == [0xE2, 0x98, 0xB9, 0xEF, 0xB8, 0x8F];
    assert ReadAsCp1252(b[5..]) == [];
    assert ReadAsCp1252(b[4..]) == ['\U{00B8}'];
    assert ReadAsCp1252(b[3..]) == ['\U{00EF}', '\U{00B8}'];
    assert ReadAsCp1252(b[2..]) == ['\U{00B9}', '\U{00EF}', '\U{00B8}'];
    assert ReadAsCp1252(b[1..]) == ['\U{02DC}', '\U{00B9}', '\U{00EF}', '\U{00B8}'];
  }

  /** Reading four bytes that Windows-1252 defines gives four characters. */
  lemma ReadFour(b: seq<nat>)
    requires |b| == 4 && forall i :: 0 <= i < 4 ==> IsByte(b[i]) && Cp1252(b[i]).Some?
    ensures ReadAsCp1252(b) == [Cp1252(b[0]).value, Cp1252(b[1]).value, Cp1252(b[2]).value, Cp1252(b[3]).value]
  {
    assert ReadAsCp1252(b[3..]) == [Cp1252(b[3]).value] + ReadAsCp1252(b[4..]);
    assert ReadAsCp1252(b[2..]) == [Cp1252(b[2]).value] + ReadAsCp1252(b[3..]);
    assert ReadAsCp1252(b[1..]) == [Cp1252(b[1]).value] + ReadAsCp1252(b[2..]);
  }

  /** A settled group with activity shows different text on the two cards
      as written. */
  lemma SimpleCardDiffersFromGroupCard(g: Group, formatCurrency: real -> string)
    requires HasActivity(g) && !HasBalance(g)
    ensures SimpleCardTextAsWritten(g, formatCurrency) != GroupCardText(g, formatCurrency)
  {
    assert SettledText(SimpleCardEmojiAsWritten)[0] != SettledText(CardEmoji)[0];
  }

  /** SimpleGroupCard's `getBalanceText` with the intended emoji: the same
      text as GroupCard for every group. */
  function SimpleCardText(g: Group, formatCurrency: real -> string): (r: Option<string>)
    ensures r == GroupCardText(g, formatCurrency)
    ensures r.Some? && !HasBalance(g) ==> r.value[0] == '\U{1F525}'
  {
    BalanceText(g, CardEmoji, formatCurrency)
  }
}
