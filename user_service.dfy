/** `UserService.updateUsername` of src/services/userService.ts: the user
    record under a new name, with an e-mail address derived from it. The
    random name and avatar generation of `createNewUser` is left out. */
module UserService {
  import opened Schema
  import opened Strings

  const EmailDomain: string := "@example.com"

  /** No ASCII capital letter occurs in `s`. */
  predicate NoUpper(s: string) {
    forall i :: 0 <= i < |s| ==> !('A' <= s[i] <= 'Z')
  }

  /** `updateUsername(user, newName)` (userService.ts:26-32): id and avatar
      are kept, the name is replaced, and the e-mail is the lower-cased name
      with all whitespace removed, followed by "@example.com". */
  function UpdateUsername(user: User, newName: string): (r: User)
    ensures r.id == user.id && r.avatar == user.avatar && r.name == newName
    ensures |r.email| >= |EmailDomain| && r.email[|r.email| - |EmailDomain|..] == EmailDomain
    ensures var local := r.email[..|r.email| - |EmailDomain|];
      NoSpace(local) && NoUpper(local) && |local| <= |newName|
  {
    var local := RemoveSpaces(Lower(newName));
    NoUpperRemoveSpaces(Lower(newName));
    assert (local + EmailDomain)[..|local|] == local;
    user.(name := newName, email := local + EmailDomain)
  }

  lemma {:induction false} NoUpperRemoveSpaces(s: string)
    requires NoUpper(s)
    ensures NoUpper(RemoveSpaces(s))
  {
    if s != [] {
      NoUpperRemoveSpaces(s[1..]);
    }
  }

  /** A name that is already lower-case and has no whitespace is used
      verbatim as the e-mail's local part. */
  lemma PlainNameIsLocalPart(user: User, newName: string)
    requires NoSpace(newName) && NoUpper(newName)
    ensures UpdateUsername(user, newName).email == newName + EmailDomain
  {
    assert Lower(newName) == newName;
  }
}
