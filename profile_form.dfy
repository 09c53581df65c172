/** The username editor of src/components/ProfileForm.tsx: the validation
    chain of `handleSave`, the Save-disabled rule, cancel and typing. String
    lengths are counted in characters. */
module ProfileForm {
  import opened Wrappers
  import opened Strings

  const EmptyError := "Username cannot be empty"
  const ShortError := "Username must be at least 2 characters long"
  const LongError := "Username must be less than 50 characters"
  const CharsetError := "Username can only contain letters, numbers, spaces, hyphens, underscores, and periods"

  /** The character class `[a-zA-Z0-9\s\-_\.]`. */
  predicate AllowedChar(c: char) {
    IsAsciiLetter(c) || IsDigit(c) || IsSpace(c) || c == '-' || c == '_' || c == '.'
  }

  predicate AllAllowed(s: string) {
    forall i :: 0 <= i < |s| ==> AllowedChar(s[i])
  }

  /** The checks of `handleSave` (ProfileForm.tsx:22-44) in order, on the
      trimmed input: the first failing one gives the error; if none fails,
      the trimmed name is saved. */
  function ValidateUsername(username: string): (r: Result<string, string>)
    ensures r.Ok? <==> 2 <= |Trim(username)| <= 50 && AllAllowed(Trim(username))
    ensures r.Ok? ==> r.value == Trim(username)
    ensures r == Err(EmptyError) <==> Trim(username) == []
    ensures r == Err(ShortError) <==> |Trim(username)| == 1
    ensures r == Err(LongError) <==> |Trim(username)| > 50
    ensures r == Err(CharsetError) <==> 2 <= |Trim(username)| <= 50 && !AllAllowed(Trim(username))
  {
    var trimmedUsername := Trim(username);
    if trimmedUsername == [] then Err(EmptyError)
    else if |trimmedUsername| < 2 then Err(ShortError)
    else if |trimmedUsername| > 50 then Err(LongError)
    else if !AllAllowed(trimmedUsername) then Err(CharsetError)
    else Ok(trimmedUsername)
  }

  /** Trimming twice is trimming once. */
  lemma TrimIdempotent(s: string)
    ensures Trim(Trim(s)) == Trim(s)
  {
    var r := Trim(s);
    TrimEnds(s);
    if r != [] {
      assert TrimStart(r) == r;
    }
  }

  /** A saved name validates again to itself. */
  lemma SavedNameRevalidates(username: string)
    requires ValidateUsername(username).Ok?
    ensures ValidateUsername(ValidateUsername(username).value) == ValidateUsername(username)
  {
    TrimIdempotent(username);
  }

  /** The Save button is disabled (ProfileForm.tsx:90). */
  predicate SaveDisabled(username: string, currentUsername: string) {
    Trim(username) == [] || Trim(username) == currentUsername
  }

  /** A save through the enabled button always hands over a new name. */
  lemma EnabledSaveChangesName(username: string, currentUsername: string)
    requires !SaveDisabled(username, currentUsername) && ValidateUsername(username).Ok?
    ensures ValidateUsername(username).value != currentUsername
  {
  }

  class UsernameEditor {
    const currentUsername: string
    var username: string
    var error: string

    constructor(currentUsername: string)
      ensures this.currentUsername == currentUsername && username == currentUsername && error == ""
    {
      this.currentUsername := currentUsername;
      username := currentUsername;
      error := "";
    }

    /** `handleSave`: on success the error is cleared and the trimmed name is
      returned for `onSave`; on failure the error is set and nothing is saved. */
    method HandleSave() returns (saved: Option<string>)
      modifies this`error
      ensures ValidateUsername(username).Ok? ==> saved == Some(ValidateUsername(username).value) && error == ""
      ensures ValidateUsername(username).Err? ==> saved == None && error == ValidateUsername(username).error
    {
      var r := ValidateUsername(username);
      if r.Err? {
        error := r.error;
        return None;
      }
      error := "";
      saved := Some(r.value);
    }

    /** `handleCancel`: back to the current name, no error. */
    method HandleCancel()
      modifies this`username, this`error
      ensures username == currentUsername && error == ""
    {
      username := currentUsername;
      error := "";
    }

    /** The input's `onChange`: typing clears any error. */
    method Type(value: string)
      modifies this`username, this`error
      ensures username == value && error == ""
    {
      username := value;
      if error != "" {
        error := "";
      }
    }
  }
}
