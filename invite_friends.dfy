/** The e-mail check of src/components/InviteFriendsModal.tsx: the pattern
    `validateEmail` tests and the guards that open `handleSendInvite`. The
    delayed send, the notification and the referral call are not modelled. */
module InviteFriends {
  import opened Wrappers
  import opened Strings
  import opened Seqs

  const RequiredMessage := "Email address is required"
  const InvalidMessage := "Please enter a valid email address"

  /** A character of the class `[^\s@]`. */
  predicate PlainChar(c: char) {
    !IsSpace(c) && c != '@'
  }

  /** A run `[^\s@]+`: non-empty, with no whitespace and no '@'. */
  predicate Plain(t: string) {
    |t| > 0 && forall i :: 0 <= i < |t| ==> PlainChar(t[i])
  }

  /** The regular expression `^[^\s@]+@[^\s@]+\.[^\s@]+$` read literally:
      `s` splits at an '@' at `i` and a '.' at `j` into three plain runs. */
  ghost predicate MatchesPattern(s: string) {
    exists i, j :: SplitsAt(s, i, j)
  }

  /** `s` is a plain run, '@' at `i`, a plain run, '.' at `j`, a plain run. */
  predicate SplitsAt(s: string, i: int, j: int) {
    && 0 < i && i + 1 < j && j + 1 < |s| && s[i] == '@' && s[j] == '.'
    && Plain(s[..i]) && Plain(s[i + 1..j]) && Plain(s[j + 1..])
  }

  /** The domain has a '.' that is neither its first nor its last character. */
  predicate HasInnerDot(d: string) {
    exists j :: 0 < j < |d| - 1 && d[j] == '.'
  }

  /** `validateEmail` (InviteFriendsModal.tsx:39-42), computed by splitting
      at the first '@'. An accepted address has no whitespace, exactly one
      '@', a non-empty local part and a domain with an inner dot. */
  function ValidateEmail(s: string): (ok: bool)
    ensures ok ==> NoSpace(s)
    ensures ok ==> '@' in s && s[0] != '@'
    ensures ok ==> forall i, j :: 0 <= i < j < |s| && s[i] == '@' ==> s[j] != '@'
    ensures ok ==> HasInnerDot(s[IndexOf(s, '@') + 1..])
  {
    if '@' in s then
      var k := IndexOf(s, '@');
      var r := Plain(s[..k]) && Plain(s[k + 1..]) && HasInnerDot(s[k + 1..]);
      assert r ==> NoSpace(s) by {
        if r {
          forall m | 0 <= m < |s| ensures !IsSpace(s[m]) {
            if m < k {
              assert s[m] == s[..k][m];
            } else if m > k {
              assert s[m] == s[k + 1..][m - k - 1];
            }
          }
        }
      }
      assert r ==> forall i, j :: 0 <= i < j < |s| && s[i] == '@' ==> s[j] != '@' by {
        if r {
          forall i, j | 0 <= i < j < |s| && s[i] == '@' ensures s[j] != '@' {
            assert s[j] == s[k + 1..][j - k - 1];
          }
        }
      }
      r
    else false
  }

  /** An address the check accepts matches the regular expression. */
  lemma AcceptedMatchesPattern(s: string)
    requires ValidateEmail(s)
    ensures MatchesPattern(s)
  {
    var k := IndexOf(s, '@');
    var d := s[k + 1..];
    var jd :| 0 < jd < |d| - 1 && d[jd] == '.';
    var j := k + 1 + jd;
    assert s[j] == '.';
    assert s[k + 1..j] == d[..jd];
    assert s[j + 1..] == d[jd + 1..];
    assert Plain(s[k + 1..j]) by {
      forall m | 0 <= m < jd ensures PlainChar(d[..jd][m]) {
        assert d[..jd][m] == d[m];
      }
    }
    assert Plain(s[j + 1..]) by {
      var e := d[jd + 1..];
      forall m | 0 <= m < |e| ensures PlainChar(e[m]) {
        assert e[m] == d[jd + 1 + m];
      }
    }
    assert SplitsAt(s, k, j);
  }

  /** A string split as the regular expression demands passes the check. */
  lemma SplitIsAccepted(s: string, i: int, j: int)
    requires SplitsAt(s, i, j)
    ensures ValidateEmail(s)
  {
    forall m | 0 <= m < i ensures s[m] != '@' {
      assert s[m] == s[..i][m];
    }
    assert IndexOf(s, '@') == i;
    var d := s[i + 1..];
    var a := s[i + 1..j];
    var c := s[j + 1..];
    assert d == a + ['.'] + c;
    forall m | 0 <= m < |d| ensures PlainChar(d[m]) {
      if m < |a| {
        assert d[m] == a[m];
      } else if m > |a| {
        assert d[m] == c[m - |a| - 1];
      }
    }
    assert d[|a|] == '.';
    assert Plain(s[..i]) && Plain(d) && HasInnerDot(d);
  }

  /** Splitting at the first '@' decides the regular expression: the
      computed check and the pattern accept the same strings. */
  lemma ValidateEmailMatchesPattern(s: string)
    ensures ValidateEmail(s) <==> MatchesPattern(s)
  {
    if ValidateEmail(s) {
      AcceptedMatchesPattern(s);
    }
    if MatchesPattern(s) {
      var i, j :| SplitsAt(s, i, j);
      SplitIsAccepted(s, i, j);
    }
  }

  /** `handleSendInvite`'s guards (InviteFriendsModal.tsx:53-63): the
      trimmed address to send, or the message shown instead. */
  function SendInvite(email: string): (r: Result<string, string>)
    ensures r == Err(RequiredMessage) <==> Trim(email) == []
    ensures r == Err(InvalidMessage) <==> Trim(email) != [] && !ValidateEmail(Trim(email))
    ensures r.Ok? <==> ValidateEmail(Trim(email))
    ensures r.Ok? ==> r.value == Trim(email)
  {
    var trimmed := Trim(email);
    if trimmed == [] then Err(RequiredMessage)
    else if !ValidateEmail(trimmed) then Err(InvalidMessage)
    else Ok(trimmed)
  }

  /** An address that is sent matches the pattern and is the input without
      its surrounding whitespace. */
  lemma SentAddressMatches(email: string)
    requires SendInvite(email).Ok?
    ensures MatchesPattern(SendInvite(email).value)
    ensures SendInvite(email).value == Trim(email)
  {
    ValidateEmailMatchesPattern(Trim(email));
  }
}
