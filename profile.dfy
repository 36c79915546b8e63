// The Profile page's client-side logic (frontend/src/pages/Profile.js): the
// avatar initials, the first/last name shown in the form, and the checks
// made before a password change is sent.
module ProfilePage {
  import opened Common
  import opened Text

  /** `getInitials`. An absent or empty name gives "U". Otherwise the
      trimmed name is split on single spaces: with two or more parts the
      initials are the first characters of the first and the last part,
      upper-cased; with one part it is the first character of the name as
      given (untrimmed), upper-cased. */
  function Initials(name: Option<string>): string
  {
    if name.None? || name.value == "" then "U"
    else
      var parts := Split(Trim(name.value), ' ');
      if |parts| >= 2 && |parts[0]| > 0 && |parts[|parts| - 1]| > 0 then
        ToUpper([parts[0][0], parts[|parts| - 1][0]])
      else
        ToUpper([name.value[0]])
  }

  /** With two or more parts after trimming, the first and last are not
      empty: trimming leaves no space at either end. */
  lemma OuterPartsNonEmpty(s: string)
    requires |Split(Trim(s), ' ')| >= 2
    ensures var parts := Split(Trim(s), ' ');
      |parts[0]| > 0 && |parts[|parts| - 1]| > 0
  {
    var t := Trim(s);
    var parts := Split(t, ' ');
    SplitJoin(t, ' ');
    JoinEnds(parts, ' ');
    assert t != [] ==> !IsSpace(t[0]) && !IsSpace(t[|t| - 1]);
  }

  /** A join of two or more parts starts with the first part followed by
      the separator, and ends with the separator followed by the last. */
  lemma {:induction false} JoinEnds(parts: seq<string>, sep: char)
    requires |parts| >= 2
    ensures var j := Join(parts, sep);
      |j| > |parts[0]| && j[|parts[0]|] == sep && j[..|parts[0]|] == parts[0] &&
      |j| > |parts[|parts| - 1]| && j[|j| - |parts[|parts| - 1]| - 1] == sep &&
      j[|j| - |parts[|parts| - 1]|..] == parts[|parts| - 1]
    decreases |parts|
  {
    var j := Join(parts, sep);
    var rest := Join(parts[1..], sep);
    assert j == parts[0] + [sep] + rest;
    if |parts| == 2 {
      assert rest == parts[1];
    } else {
      JoinEnds(parts[1..], sep);
    }
    var last := parts[|parts| - 1];
    assert parts[1..][|parts[1..]| - 1] == last;
    if |parts| == 2 {
      assert j[|j| - |last|..] == rest;
    } else {
      assert j[|j| - |last|..] == rest[|rest| - |last|..];
      assert j[|j| - |last| - 1] == rest[|rest| - |last| - 1];
    }
  }

  /** Empty and absent names give "U". */
  lemma InitialsDefault(name: Option<string>)
    requires name.None? || name == Some("")
    ensures Initials(name) == "U"
  {
  }

  /** Two or more space-separated parts give the upper-cased first
      characters of the first and last part. */
  lemma InitialsOfParts(name: string)
    requires name != "" && |Split(Trim(name), ' ')| >= 2
    ensures var parts := Split(Trim(name), ' ');
      |parts[0]| > 0 && |parts[|parts| - 1]| > 0 &&
      Initials(Some(name)) == [UpperChar(parts[0][0]), UpperChar(parts[|parts| - 1][0])]
  {
    OuterPartsNonEmpty(name);
  }

  /** One part gives the upper-cased first character of the name. */
  lemma InitialsOfOnePart(name: string)
    requires name != "" && |Split(Trim(name), ' ')| < 2
    ensures Initials(Some(name)) == [UpperChar(name[0])]
  {
  }

  /** The untrimmed first character is used: a single word after a space
      gives a blank initial. */
  lemma InitialsOfPaddedWord()
    ensures Initials(Some(" bo")) == " "
  {
    TrimPadded();
    SplitWord();
  }

  lemma TrimPadded()
    ensures Trim(" bo") == "bo"
  {
    assert IsSpace(' ') && !IsSpace('b') && !IsSpace('o');
    assert " bo"[1..] == "bo";
    assert TrimStart("bo") == "bo";
    assert TrimStart(" bo") == "bo";
    assert TrimEnd("bo") == "bo";
  }

  lemma SplitWord()
    ensures Split("bo", ' ') == ["bo"]
  {
    assert "o"[1..] == "";
    assert Split("", ' ') == [""];
    assert [""][1..] == [];
    assert ['o'] + "" == "o";
    assert Split("o", ' ') == ["o"];
    assert "bo"[1..] == "o";
    assert ['b'] + "o" == "bo";
  }

  /** The profile form's first name: `first_name` when set, else the name
      up to its first space. */
  function FirstName(firstName: Option<string>, name: Option<string>): string
  {
    if firstName.Some? && firstName.value != "" then firstName.value
    else if name.Some? && name.value != "" then Split(name.value, ' ')[0]
    else ""
  }

  /** The profile form's last name: `last_name` when set, else the name
      after its first space, the remaining parts rejoined with spaces. */
  function LastName(lastName: Option<string>, name: Option<string>): string
  {
    if lastName.Some? && lastName.value != "" then lastName.value
    else if name.Some? && name.value != "" then Join(Split(name.value, ' ')[1..], ' ')
    else ""
  }

  /** Without stored first and last names, the form splits the name at its
      first space: first name, space and last name give the name back, and
      a name without a space is all first name. */
  lemma NameSplitRoundTrip(name: string)
    requires name != ""
    ensures var first := FirstName(None, Some(name));
      var last := LastName(None, Some(name));
      ' ' !in first &&
      (' ' in name ==> first + " " + last == name) &&
      (' ' !in name ==> first == name && last == "")
  {
    SplitFirstAndRest(name, ' ');
    var parts := Split(name, ' ');
    if |parts| == 1 {
      assert parts[1..] == [];
      assert parts[0] == name;
    } else {
      var k := |parts[0]|;
      assert name[k] == ' ';
    }
  }

  /** Stored names win over the split. */
  lemma StoredNamesWin(firstName: string, lastName: string, name: Option<string>)
    requires firstName != "" && lastName != ""
    ensures FirstName(Some(firstName), name) == firstName && LastName(Some(lastName), name) == lastName
  {
  }

  /** Why a password change is refused before anything is sent. */
  datatype PasswordError = Mismatch | TooShort

  const MinPasswordLength := 6

  /** `handleChangePassword`'s checks: the confirmation must match, then
      the new password must have at least six characters. */
  function CheckPasswordChange(newPassword: string, confirmPassword: string): (r: Option<PasswordError>)
    ensures r.None? <==> newPassword == confirmPassword && |newPassword| >= MinPasswordLength
  {
    if newPassword != confirmPassword then Some(Mismatch)
    else if |newPassword| < MinPasswordLength then Some(TooShort)
    else None
  }

  /** A mismatch is reported whatever the length; a short password only
      when the two agree. */
  lemma MismatchFirst(newPassword: string, confirmPassword: string)
    ensures newPassword != confirmPassword ==> CheckPasswordChange(newPassword, confirmPassword) == Some(Mismatch)
    ensures CheckPasswordChange(newPassword, confirmPassword) == Some(TooShort) <==>
      newPassword == confirmPassword && |newPassword| < MinPasswordLength
  {
  }
}
