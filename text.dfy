/** The JavaScript string operations the frontend pages rely on: `split` on a
    one-character separator, `join`, `trim`, `toLowerCase`/`toUpperCase` and the
    regular-expression replacement `/\s+/g`. Strings are sequences of Unicode
    scalar values. */
module Text {

  /** The characters JavaScript's `trim` removes and `\s` matches
      (WhiteSpace and LineTerminator of ECMAScript). */
  predicate IsSpace(c: char)
  {
    ('\t' <= c <= '\r') || c == ' ' || c == '\U{00A0}' || c == '\U{1680}' ||
    ('\U{2000}' <= c <= '\U{200A}') || c == '\U{2028}' || c == '\U{2029}' ||
    c == '\U{202F}' || c == '\U{205F}' || c == '\U{3000}' || c == '\U{FEFF}'
  }

  /** `s.split(sep)` for a one-character separator: the pieces between
      separators, always at least one. */
  function Split(s: string, sep: char): (parts: seq<string>)
    ensures |parts| >= 1
    ensures forall i :: 0 <= i < |parts| ==> sep !in parts[i]
    decreases |s|
  {
    if |s| == 0 then [""]
    else
      var rest := Split(s[1..], sep);
      if s[0] == sep then [""] + rest
      else [[s[0]] + rest[0]] + rest[1..]
  }

  /** `parts.join(sep)` for a one-character separator. */
  function Join(parts: seq<string>, sep: char): string
  {
    if |parts| == 0 then ""
    else if |parts| == 1 then parts[0]
    else parts[0] + [sep] + Join(parts[1..], sep)
  }

  /** Splitting and joining on the same separator gives back the string. */
  lemma {:induction false} SplitJoin(s: string, sep: char)
    ensures Join(Split(s, sep), sep) == s
  {
    if |s| > 0 {
      var rest := Split(s[1..], sep);
      SplitJoin(s[1..], sep);
      if s[0] == sep {
        assert Split(s, sep) == [""] + rest;
        assert ([""] + rest)[1..] == rest;
        assert Join(Split(s, sep), sep) == "" + [sep] + Join(rest, sep);
        assert s == [s[0]] + s[1..];
      } else {
        var parts := [[s[0]] + rest[0]] + rest[1..];
        assert Split(s, sep) == parts;
        if |rest| == 1 {
          assert Join(parts, sep) == [s[0]] + rest[0];
          assert Join(rest, sep) == rest[0];
        } else {
          assert parts[1..] == rest[1..];
          assert Join(parts, sep) == [s[0]] + rest[0] + [sep] + Join(rest[1..], sep);
          assert Join(rest, sep) == rest[0] + [sep] + Join(rest[1..], sep);
        }
        assert s == [s[0]] + s[1..];
      }
    }
  }

  /** With at least two pieces, the first piece, the separator and the rest
      rejoined rebuild the string; with one piece, that piece is the string. */
  lemma SplitFirstAndRest(s: string, sep: char)
    ensures var p := Split(s, sep);
      if |p| > 1 then p[0] + [sep] + Join(p[1..], sep) == s else p[0] == s
  {
    SplitJoin(s, sep);
  }

  /** `s.trimStart()`: drops the leading whitespace, nothing else. */
  function TrimStart(s: string): (r: string)
    ensures |r| <= |s| && r == s[|s| - |r|..]
    ensures r == [] || !IsSpace(r[0])
    ensures forall k :: 0 <= k < |s| - |r| ==> IsSpace(s[k])
    decreases |s|
  {
    if |s| > 0 && IsSpace(s[0]) then TrimStart(s[1..]) else s
  }

  /** `s.trimEnd()`: drops the trailing whitespace, nothing else. */
  function TrimEnd(s: string): (r: string)
    ensures |r| <= |s| && r == s[..|r|]
    ensures r == [] || !IsSpace(r[|r| - 1])
    ensures forall k :: |r| <= k < |s| ==> IsSpace(s[k])
    decreases |s|
  {
    if |s| > 0 && IsSpace(s[|s| - 1]) then TrimEnd(s[..|s| - 1]) else s
  }

  /** `s.trim()`: the piece of `s` after its leading whitespace (whose length
      is `|s| - |TrimStart(s)|`) that neither starts nor ends with whitespace,
      all of whose removed characters are whitespace. */
  function Trim(s: string): (r: string)
    ensures var i := |s| - |TrimStart(s)|;
      i + |r| <= |s| && r == s[i..i + |r|] &&
      (forall k :: 0 <= k < i ==> IsSpace(s[k])) &&
      (forall k :: i + |r| <= k < |s| ==> IsSpace(s[k]))
    ensures r == [] || (!IsSpace(r[0]) && !IsSpace(r[|r| - 1]))
  {
    var t := TrimStart(s);
    var r := TrimEnd(t);
    TrimParts(s, t, r);
    r
  }

  lemma TrimParts(s: string, t: string, r: string)
    requires |t| <= |s| && t == s[|s| - |t|..]
    requires t == [] || !IsSpace(t[0])
    requires forall k :: 0 <= k < |s| - |t| ==> IsSpace(s[k])
    requires |r| <= |t| && r == t[..|r|]
    requires r == [] || !IsSpace(r[|r| - 1])
    requires forall k :: |r| <= k < |t| ==> IsSpace(t[k])
    ensures var i := |s| - |t|;
      i + |r| <= |s| && r == s[i..i + |r|] &&
      (forall k :: 0 <= k < i ==> IsSpace(s[k])) &&
      (forall k :: i + |r| <= k < |s| ==> IsSpace(s[k]))
    ensures r == [] || (!IsSpace(r[0]) && !IsSpace(r[|r| - 1]))
  {
    var i := |s| - |t|;
    forall k | i + |r| <= k < |s|
      ensures IsSpace(s[k])
    {
      assert s[k] == t[k - i];
    }
    if r != [] {
      assert r[0] == t[0];
    }
  }

  /** ASCII case mapping of `toLowerCase` / `toUpperCase`. */
  function LowerChar(c: char): char
  {
    if 'A' <= c <= 'Z' then (c as int + 32) as char else c
  }

  function UpperChar(c: char): char
  {
    if 'a' <= c <= 'z' then (c as int - 32) as char else c
  }

  function ToLower(s: string): (r: string)
    ensures |r| == |s| && forall k :: 0 <= k < |s| ==> r[k] == LowerChar(s[k])
  {
    seq(|s|, k requires 0 <= k < |s| => LowerChar(s[k]))
  }

  function ToUpper(s: string): (r: string)
    ensures |r| == |s| && forall k :: 0 <= k < |s| ==> r[k] == UpperChar(s[k])
  {
    seq(|s|, k requires 0 <= k < |s| => UpperChar(s[k]))
  }

  /** `s.replace(/\s+/g, '_')`: every maximal run of whitespace becomes one `_`. */
  function UnderscoreSpaceRuns(s: string): (r: string)
    ensures forall k :: 0 <= k < |r| ==> !IsSpace(r[k])
    ensures |r| <= |s|
    decreases |s|
  {
    if |s| == 0 then ""
    else if IsSpace(s[0]) then "_" + UnderscoreSpaceRuns(TrimStart(s))
    else [s[0]] + UnderscoreSpaceRuns(s[1..])
  }

  /** A string without whitespace is left as it is. */
  lemma {:induction false} UnderscoreNoSpace(s: string)
    requires forall k :: 0 <= k < |s| ==> !IsSpace(s[k])
    ensures UnderscoreSpaceRuns(s) == s
  {
    if |s| > 0 {
      UnderscoreNoSpace(s[1..]);
    }
  }
}
