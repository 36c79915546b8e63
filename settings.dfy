// The Settings page's client-side logic (frontend/src/pages/Settings.js): the
// CSV parser behind the bulk upload, the permission toggle of the role
// editor, and whether a saved user carries a password.
module SettingsPage {
  import opened Common
  import opened Text

  // ----- parseInt -----

  /** The digit value of a character in bases up to 36, or 36 for none. */
  function DigitValue(c: char): (d: nat)
    ensures d <= 36
  {
    if '0' <= c <= '9' then c as int - '0' as int
    else if 'a' <= c <= 'z' then c as int - 'a' as int + 10
    else if 'A' <= c <= 'Z' then c as int - 'A' as int + 10
    else 36
  }

  /** How many characters at the front are digits of the radix. */
  function LeadingDigits(s: string, radix: nat): (n: nat)
    ensures n <= |s|
    ensures forall k :: 0 <= k < n ==> DigitValue(s[k]) < radix
    ensures n < |s| ==> DigitValue(s[n]) >= radix
  {
    if |s| == 0 || DigitValue(s[0]) >= radix then 0 else 1 + LeadingDigits(s[1..], radix)
  }

  /** The value of a string of digits in the radix. */
  function DigitsValue(s: string, radix: nat): nat
  {
    if |s| == 0 then 0
    else DigitsValue(s[..|s| - 1], radix) * radix + (if DigitValue(s[|s| - 1]) < 36 then DigitValue(s[|s| - 1]) else 0)
  }

  /** The unsigned part of `parseInt`: hexadecimal digits after `0x`/`0X`,
      else decimal digits, read as far as they go; no digit at all is
      `NaN`, here `None`. */
  function Unsigned(body: string): Option<nat>
  {
    if |body| >= 2 && body[0] == '0' && (body[1] == 'x' || body[1] == 'X') then Digits(body[2..], 16)
    else Digits(body, 10)
  }

  /** The digits of the radix at the front of `s`, read as far as they go. */
  function Digits(s: string, radix: nat): Option<nat>
  {
    var n := LeadingDigits(s, radix);
    if n == 0 then None else Some(DigitsValue(s[..n], radix))
  }

  /** JavaScript's `parseInt` without a radix, on an already trimmed
      string: an optional sign before the digits. `NaN`, here `None`, is
      sent in the request body as `null`. */
  function ParseInt(s: string): Option<int>
  {
    if |s| > 0 && s[0] == '-' then
      var u := Unsigned(s[1..]);
      if u.None? then None else Some(0 - u.value)
    else if |s| > 0 && s[0] == '+' then
      var u := Unsigned(s[1..]);
      if u.None? then None else Some(u.value)
    else
      var u := Unsigned(s);
      if u.None? then None else Some(u.value)
  }

  /** A non-empty string of decimal digits. */
  predicate IsNumeral(s: string)
  {
    |s| > 0 && forall k :: 0 <= k < |s| ==> '0' <= s[k] <= '9'
  }

  /** The decimal numeral of a natural number. */
  function Decimal(n: nat): (s: string)
    ensures IsNumeral(s)
  {
    (if n < 10 then "" else Decimal(n / 10)) + [('0' as int + n % 10) as char]
  }

  lemma {:induction false} DecimalValue(n: nat)
    ensures DigitsValue(Decimal(n), 10) == n
  {
    var s := Decimal(n);
    assert s[..|s| - 1] == if n < 10 then "" else Decimal(n / 10);
    if n >= 10 {
      DecimalValue(n / 10);
    }
  }

  lemma {:induction false} LeadingDigitsAppend(s: string, rest: string)
    requires forall k :: 0 <= k < |s| ==> '0' <= s[k] <= '9'
    requires rest == [] || DigitValue(rest[0]) >= 10
    ensures LeadingDigits(s + rest, 10) == |s|
  {
    if |s| > 0 {
      assert (s + rest)[1..] == s[1..] + rest;
      LeadingDigitsAppend(s[1..], rest);
    } else {
      assert s + rest == rest;
    }
  }

  /** A numeral followed by anything that is neither a digit nor an `x`
      reads as its value: `parseInt` stops at the first non-digit. */
  lemma UnsignedNumeral(s: string, rest: string)
    requires IsNumeral(s)
    requires rest == [] || (DigitValue(rest[0]) >= 10 && rest[0] != 'x' && rest[0] != 'X')
    ensures Unsigned(s + rest) == Some(DigitsValue(s, 10))
  {
    var body := s + rest;
    LeadingDigitsAppend(s, rest);
    assert body[..|s|] == s;
    var hex := |body| >= 2 && body[0] == '0' && (body[1] == 'x' || body[1] == 'X');
    if |body| >= 2 {
      if |s| >= 2 {
        assert body[1] == s[1] && '0' <= s[1] <= '9';
      } else {
        assert body[1] == rest[0];
      }
    }
    assert !hex;
  }

  /** `parseInt` reads a numeral with or without a sign, ignoring what
      follows the digits. */
  lemma ParseIntNumeral(s: string, rest: string)
    requires IsNumeral(s)
    requires rest == [] || (DigitValue(rest[0]) >= 10 && rest[0] != 'x' && rest[0] != 'X')
    ensures ParseInt(s + rest) == Some(DigitsValue(s, 10))
    ensures ParseInt("-" + (s + rest)) == Some(-(DigitsValue(s, 10) as int))
    ensures ParseInt("+" + (s + rest)) == Some(DigitsValue(s, 10))
  {
    UnsignedNumeral(s, rest);
    assert (s + rest)[0] == s[0] && '0' <= s[0] <= '9';
    ParseSigned(s + rest, DigitsValue(s, 10));
  }

  /** The sign in front of the unsigned part. */
  lemma ParseSigned(t: string, v: nat)
    requires Unsigned(t) == Some(v) && |t| > 0 && t[0] != '-' && t[0] != '+'
    ensures ParseInt(t) == Some(v) && ParseInt("-" + t) == Some(-(v as int)) && ParseInt("+" + t) == Some(v)
  {
    assert ("-" + t)[1..] == t;
    assert ("+" + t)[1..] == t;
  }

  /** `parseInt` reads back the decimal numeral of every integer. */
  lemma ParseIntDecimal(n: nat)
    ensures ParseInt(Decimal(n)) == Some(n)
    ensures ParseInt("-" + Decimal(n)) == Some(-(n as int))
  {
    var s := Decimal(n);
    DecimalValue(n);
    UnsignedNumeral(s, []);
    assert s + [] == s;
    assert '0' <= s[0] <= '9';
    ParseSigned(s, n);
  }

  /** Without a digit there is no number. */
  lemma ParseIntNoDigit(s: string)
    requires |s| > 0 && DigitValue(s[0]) >= 10 && s[0] != '-' && s[0] != '+'
    ensures ParseInt(s) == None
  {
  }

  // ----- The bulk-upload CSV -----

  /** The object key a header names: trimmed, lower-cased, whitespace runs
      replaced by `_`. */
  function HeaderKey(header: string): string
  {
    UnderscoreSpaceRuns(ToLower(Trim(header)))
  }

  /** A key holds no whitespace and no upper-case letter. */
  lemma HeaderKeyShape(header: string)
    ensures var key := HeaderKey(header);
      forall k :: 0 <= k < |key| ==> !IsSpace(key[k]) && !('A' <= key[k] <= 'Z')
  {
    UnderscoreUnchangedChars(ToLower(Trim(header)));
  }

  /** Replacing whitespace runs brings in no character but `_`. */
  lemma {:induction false} UnderscoreUnchangedChars(s: string)
    ensures forall k :: 0 <= k < |UnderscoreSpaceRuns(s)| ==>
      UnderscoreSpaceRuns(s)[k] == '_' || UnderscoreSpaceRuns(s)[k] in s
    decreases |s|
  {
    if |s| > 0 {
      if IsSpace(s[0]) {
        var t := TrimStart(s);
        UnderscoreUnchangedChars(t);
        forall k | 0 <= k < |UnderscoreSpaceRuns(t)| && UnderscoreSpaceRuns(t)[k] in t
          ensures UnderscoreSpaceRuns(t)[k] in s
        {
          var i :| 0 <= i < |t| && t[i] == UnderscoreSpaceRuns(t)[k];
          assert s[|s| - |t| + i] == t[i];
        }
      } else {
        UnderscoreUnchangedChars(s[1..]);
        forall k | 0 <= k < |UnderscoreSpaceRuns(s[1..])| && UnderscoreSpaceRuns(s[1..])[k] in s[1..]
          ensures UnderscoreSpaceRuns(s[1..])[k] in s
        {
          var i :| 0 <= i < |s[1..]| && s[1..][i] == UnderscoreSpaceRuns(s[1..])[k];
          assert s[1 + i] == s[1..][i];
        }
      }
    }
  }

  /** The comma-separated cells of a line, each trimmed. */
  function Cells(line: string): seq<string>
  {
    var parts := Split(line, ',');
    seq(|parts|, i requires 0 <= i < |parts| => Trim(parts[i]))
  }

  /** The object built for a line: each header's key set to the cell below
      it, or "" where the line is short; a later header with the same key
      overwrites an earlier one. */
  function RowObject(headers: seq<string>, cells: seq<string>): (row: map<string, string>)
    ensures row.Keys == HeaderKeys(headers)
  {
    if |headers| == 0 then map[]
    else
      var i := |headers| - 1;
      RowObject(headers[..i], cells)[HeaderKey(headers[i]) := if i < |cells| then cells[i] else ""]
  }

  /** The keys the headers name. */
  function HeaderKeys(headers: seq<string>): set<string>
  {
    if |headers| == 0 then {} else HeaderKeys(headers[..|headers| - 1]) + {HeaderKey(headers[|headers| - 1])}
  }

  /** Every header's key is a key of the row object. */
  lemma {:induction false} HeaderKeyPresent(headers: seq<string>, j: nat)
    requires j < |headers|
    ensures HeaderKey(headers[j]) in HeaderKeys(headers)
    decreases |headers|
  {
    if j < |headers| - 1 {
      var earlier := headers[..|headers| - 1];
      assert earlier[j] == headers[j];
      HeaderKeyPresent(earlier, j);
    }
  }

  /** The cell a key receives comes from the last header with that key. */
  lemma {:induction false} RowObjectCell(headers: seq<string>, cells: seq<string>, i: nat)
    requires i < |headers|
    requires forall j :: i < j < |headers| ==> HeaderKey(headers[j]) != HeaderKey(headers[i])
    ensures HeaderKey(headers[i]) in RowObject(headers, cells) &&
      RowObject(headers, cells)[HeaderKey(headers[i])] == if i < |cells| then cells[i] else ""
    decreases |headers|
  {
    if i < |headers| - 1 {
      var earlier := headers[..|headers| - 1];
      assert earlier[i] == headers[i];
      RowObjectCell(earlier, cells, i);
    }
  }

  /** A value read off the row object, where a missing key and "" are both
      falsy. */
  function Field(row: map<string, string>, key: string): string
  {
    if key in row then row[key] else ""
  }

  function NullIfEmpty(s: string): (r: Option<string>)
    ensures r.None? <==> s == ""
  {
    if s == "" then None else Some(s)
  }

  /** An id column: empty is `null`, anything else goes through `parseInt`. */
  function IdField(s: string): Option<int>
  {
    if s == "" then None else ParseInt(s)
  }

  /** A user as the upload sends it. `email` is absent when no header names
      it. */
  datatype UploadUser = UploadUser(email: Option<string>, name: string, phone: Option<string>, roleId: Option<int>,
                                   managerId: Option<int>, auditorId: Option<int>, teamId: Option<int>,
                                   userType: string, location: Option<string>)

  const ProductUser := "product_user"

  /** The user built from a row object. With no `name`, the name is the
      text of the email before its first `@`; with no `email` column either
      there is nothing to split and the page throws, which `None` stands
      for. */
  function UserOf(row: map<string, string>): (u: Option<UploadUser>)
    ensures u.None? <==> Field(row, "name") == "" && "email" !in row
  {
    var email := if "email" in row then Some(row["email"]) else None;
    if Field(row, "name") == "" && email.None? then None
    else
      Some(UploadUser(
             email,
             if Field(row, "name") != "" then Field(row, "name") else Split(email.value, '@')[0],
             NullIfEmpty(Field(row, "phone")),
             IdField(Field(row, "role_id")),
             IdField(Field(row, "manager_id")),
             IdField(Field(row, "auditor_id")),
             IdField(Field(row, "team_id")),
             if Field(row, "user_type") != "" then Field(row, "user_type") else ProductUser,
             NullIfEmpty(Field(row, "location"))))
  }

  /** The name fallback is the email up to, and not including, its first
      `@` (all of it when there is none). */
  lemma NameFallback(row: map<string, string>)
    requires Field(row, "name") == "" && "email" in row
    ensures var name := UserOf(row).value.name;
      '@' !in name && (name == row["email"] || name + "@" <= row["email"])
  {
    var e := row["email"];
    SplitFirstAndRest(e, '@');
    var p := Split(e, '@');
    if |p| > 1 {
      assert e == p[0] + "@" + Join(p[1..], '@');
      assert (p[0] + "@") == e[..|p[0]| + 1];
    }
  }

  /** The defaults: a given name is kept, `user_type` falls back to
      `product_user`, and an empty phone or location becomes `null`. */
  lemma UserDefaults(row: map<string, string>)
    requires UserOf(row).Some?
    ensures var u := UserOf(row).value;
      (Field(row, "name") != "" ==> u.name == row["name"]) &&
      (u.userType == if Field(row, "user_type") == "" then ProductUser else row["user_type"]) &&
      (u.phone.None? <==> Field(row, "phone") == "") &&
      (u.location.None? <==> Field(row, "location") == "") &&
      (u.roleId.Some? ==> Field(row, "role_id") != "")
  {
  }

  /** Why the upload stops before sending: the line (0-based, the header
      being line 0) whose user has neither a name nor an email column. */
  datatype UploadError = NoNameOrEmail(line: nat)

  /** The users of lines 1 to n-1 of the file, blank lines skipped. */
  function ParseLines(headers: seq<string>, lines: seq<string>, n: nat): (r: Result<seq<UploadUser>, UploadError>)
    requires 1 <= n <= |lines|
  {
    if n == 1 then Ok([])
    else
      var before := ParseLines(headers, lines, n - 1);
      if before.Err? then before
      else if Blank(lines[n - 1]) then before
      else
        var u := LineUser(headers, lines[n - 1]);
        if u.None? then Err(NoNameOrEmail(n - 1)) else Ok(before.value + [u.value])
  }

  /** A line that `trim` empties, which the upload skips. */
  predicate Blank(line: string)
  {
    Trim(line) == ""
  }

  /** The user of one line under the headers. */
  function LineUser(headers: seq<string>, line: string): Option<UploadUser>
  {
    UserOf(RowObject(headers, Cells(line)))
  }

  /** The header cells of a file. */
  function Headers(text: string): seq<string>
  {
    Cells(Split(text, '\n')[0])
  }

  /** The users a file yields, or why the page stops. */
  function Upload(text: string): Result<seq<UploadUser>, UploadError>
  {
    var lines := Split(text, '\n');
    ParseLines(Headers(text), lines, |lines|)
  }

  /** The CSV parsing of `handleBulkUpload`: one user per non-blank line
      after the header line. */
  method ParseUpload(text: string) returns (r: Result<seq<UploadUser>, UploadError>)
    ensures r == Upload(text)
  {
    var lines := Split(text, '\n');
    var headers := Cells(lines[0]);
    var users: seq<UploadUser> := [];
    for i := 1 to |lines|
      invariant ParseLines(headers, lines, i) == Ok(users)
    {
      var failed;
      failed, users := ParseLine(headers, lines, i, users);
      if failed {
        ErrorStops(headers, lines, i + 1, |lines|);
        return Err(NoNameOrEmail(i));
      }
    }
    r := Ok(users);
  }

  /** One pass of the loop: skip a blank line, else push its user or stop. */
  method ParseLine(headers: seq<string>, lines: seq<string>, i: nat, users: seq<UploadUser>)
    returns (failed: bool, users': seq<UploadUser>)
    requires 1 <= i < |lines| && ParseLines(headers, lines, i) == Ok(users)
    ensures failed ==> ParseLines(headers, lines, i + 1) == Err(NoNameOrEmail(i))
    ensures !failed ==> ParseLines(headers, lines, i + 1) == Ok(users')
  {
    failed, users' := false, users;
    if !Blank(lines[i]) {
      var user := LineUser(headers, lines[i]);
      if user.None? {
        failed := true;
      } else {
        users' := users + [user.value];
      }
    }
  }

  /** The first line that fails decides the outcome. */
  lemma {:induction false} ErrorStops(headers: seq<string>, lines: seq<string>, m: nat, n: nat)
    requires 1 <= m <= n <= |lines|
    requires ParseLines(headers, lines, m).Err?
    ensures ParseLines(headers, lines, n) == ParseLines(headers, lines, m)
    decreases n
  {
    if n > m {
      ErrorStops(headers, lines, m, n - 1);
    }
  }

  /** The number of non-blank lines among lines 1 to n-1. */
  function NonBlank(lines: seq<string>, n: nat): nat
    requires 1 <= n <= |lines|
  {
    if n == 1 then 0 else NonBlank(lines, n - 1) + (if Blank(lines[n - 1]) then 0 else 1)
  }

  /** A successful parse yields one user per non-blank line after the
      header, the k-th from the k-th such line. */
  lemma {:induction false} OnePerLine(headers: seq<string>, lines: seq<string>, n: nat)
    requires 1 <= n <= |lines|
    requires ParseLines(headers, lines, n).Ok?
    ensures |ParseLines(headers, lines, n).value| == NonBlank(lines, n)
    decreases n
  {
    if n > 1 {
      OnePerLine(headers, lines, n - 1);
    }
  }

  /** With a column named `email`, every user can be built and the parse
      succeeds. */
  lemma {:induction false} EmailColumnSucceeds(headers: seq<string>, lines: seq<string>, n: nat)
    requires 1 <= n <= |lines|
    requires "email" in HeaderKeys(headers)
    ensures ParseLines(headers, lines, n).Ok?
    decreases n
  {
    if n > 1 {
      EmailColumnSucceeds(headers, lines, n - 1);
    }
  }

  // ----- The role editor's permission toggle -----

  /** `filter(cn => cn !== codeName)`. */
  function Without(codes: seq<string>, codeName: string): (r: seq<string>)
    ensures codeName !in r
    ensures forall x :: x != codeName ==> (x in r <==> x in codes)
  {
    if |codes| == 0 then []
    else
      var rest := Without(codes[..|codes| - 1], codeName);
      assert codes == codes[..|codes| - 1] + [codes[|codes| - 1]];
      if codes[|codes| - 1] == codeName then rest else rest + [codes[|codes| - 1]]
  }

  /** `togglePermission`: drop every occurrence of a selected code name, or
      add it at the end. */
  function TogglePermission(codes: seq<string>, codeName: string): seq<string>
  {
    if codeName in codes then Without(codes, codeName) else codes + [codeName]
  }

  /** Toggling flips the code name's membership and no other's. */
  lemma ToggleFlips(codes: seq<string>, codeName: string)
    ensures codeName in TogglePermission(codes, codeName) <==> codeName !in codes
    ensures forall x :: x != codeName ==> (x in TogglePermission(codes, codeName) <==> x in codes)
  {
  }

  lemma {:induction false} WithoutAbsent(codes: seq<string>, codeName: string)
    requires codeName !in codes
    ensures Without(codes, codeName) == codes
    decreases |codes|
  {
    if |codes| > 0 {
      WithoutAbsent(codes[..|codes| - 1], codeName);
    }
  }

  /** Toggling an unselected code name twice gives back the list. */
  lemma ToggleTwiceAbsent(codes: seq<string>, codeName: string)
    requires codeName !in codes
    ensures TogglePermission(TogglePermission(codes, codeName), codeName) == codes
  {
    var added := codes + [codeName];
    assert added[..|added| - 1] == codes;
    WithoutAbsent(codes, codeName);
  }

  /** Toggling a selected code name twice keeps the same code names, but
      moves it to the end. */
  lemma ToggleTwicePresent(codes: seq<string>, codeName: string)
    requires codeName in codes
    ensures var r := TogglePermission(TogglePermission(codes, codeName), codeName);
      r == Without(codes, codeName) + [codeName] && (forall x :: x in r <==> x in codes)
  {
  }

  /** So the list itself is not always restored. */
  lemma ToggleTwiceReorders()
    ensures TogglePermission(TogglePermission(["a", "b"], "a"), "a") == ["b", "a"]
  {
    assert ["a", "b"][..1] == ["a"];
    assert ["a"][..0] == [];
    assert "b" != "a";
  }

  // ----- Saving a user -----

  /** The password a saved user carries, `None` when the key is left out:
      an edit sends it only when it is not empty; a creation always sends
      the form's password, empty or not. */
  function SavedPassword(editing: bool, password: string): (r: Option<string>)
    ensures r.Some? ==> r.value == password
    ensures editing ==> (r.Some? <==> password != "")
    ensures !editing ==> r.Some?
  {
    if !editing || password != "" then Some(password) else None
  }
}
