/**
 * The JavaScript string operations the launcher relies on, over `string` (a
 * sequence of Unicode scalar values): the `\s` character class and `trim`,
 * `toLowerCase`/`toUpperCase`, `startsWith`, `endsWith`, `includes`, and the
 * UTF-16 `length` that the length gates compare against.
 */
module Text {

  /** JavaScript LineTerminator: `.` in a regular expression never matches one. */
  predicate IsLineTerminator(c: char) {
    c == '\n' || c == '\r' || c == '\U{2028}' || c == '\U{2029}'
  }

  /** JavaScript WhiteSpace or LineTerminator: the `\s` class, and what `trim` removes. */
  predicate IsSpace(c: char) {
    || IsLineTerminator(c)
    || c == '\t' || c == '\U{000B}' || c == '\U{000C}' || c == ' '
    || c == '\U{00A0}' || c == '\U{1680}' || ('\U{2000}' <= c <= '\U{200A}')
    || c == '\U{202F}' || c == '\U{205F}' || c == '\U{3000}' || c == '\U{FEFF}'
  }

  /** `\d` (ASCII digits only, the regular expressions here have no `u` flag). */
  predicate IsDigit(c: char) {
    '0' <= c <= '9'
  }

  /** `[a-zA-Z]`. */
  predicate IsAsciiLetter(c: char) {
    ('a' <= c <= 'z') || ('A' <= c <= 'Z')
  }

  /** Lower-case mapping of one character: ASCII letters and the Hungarian accented letters. */
  function LowerChar(c: char): char {
    if 'A' <= c <= 'Z' then (c as int + 32) as char
    else match c
      case 'Á' => 'á'
      case 'É' => 'é'
      case 'Í' => 'í'
      case 'Ó' => 'ó'
      case 'Ö' => 'ö'
      case 'Ő' => 'ő'
      case 'Ú' => 'ú'
      case 'Ü' => 'ü'
      case 'Ű' => 'ű'
      case _ => c
  }

  /** Upper-case mapping of one character, the inverse of `LowerChar` on the letters it covers. */
  function UpperChar(c: char): char {
    if 'a' <= c <= 'z' then (c as int - 32) as char
    else match c
      case 'á' => 'Á'
      case 'é' => 'É'
      case 'í' => 'Í'
      case 'ó' => 'Ó'
      case 'ö' => 'Ö'
      case 'ő' => 'Ő'
      case 'ú' => 'Ú'
      case 'ü' => 'Ü'
      case 'ű' => 'Ű'
      case _ => c
  }

  /** `s.toLowerCase()`. */
  function ToLower(s: string): (r: string)
    ensures |r| == |s|
    ensures forall i :: 0 <= i < |s| ==> r[i] == LowerChar(s[i])
  {
    seq(|s|, i requires 0 <= i < |s| => LowerChar(s[i]))
  }

  /** Lower-casing twice is lower-casing once. */
  lemma ToLowerIdempotent(s: string)
    ensures ToLower(ToLower(s)) == ToLower(s)
  {
    forall i | 0 <= i < |s| ensures ToLower(ToLower(s))[i] == ToLower(s)[i] {
      var c := s[i];
      assert LowerChar(LowerChar(c)) == LowerChar(c);
    }
  }

  /** `s.toUpperCase()`. */
  function ToUpper(s: string): (r: string)
    ensures |r| == |s|
    ensures forall i :: 0 <= i < |s| ==> r[i] == UpperChar(s[i])
  {
    seq(|s|, i requires 0 <= i < |s| => UpperChar(s[i]))
  }

  /** `s.startsWith(p)`. */
  predicate StartsWith(s: string, p: string) {
    p <= s
  }

  /** `s.endsWith(p)`. */
  predicate EndsWith(s: string, p: string) {
    |p| <= |s| && s[|s| - |p|..] == p
  }

  /** `s.includes(sub)`: `sub` occurs in `s` at some position. */
  predicate Contains(s: string, sub: string) {
    exists i :: 0 <= i <= |s| && sub <= s[i..]
  }

  /** `s.length` in JavaScript: characters outside the Basic Multilingual Plane count twice. */
  function Utf16Length(s: string): (n: nat)
    ensures |s| <= n <= 2 * |s|
  {
    if s == [] then 0
    else Utf16Length(s[..|s| - 1]) + (if s[|s| - 1] as int > 0xFFFF then 2 else 1)
  }

  /** The character classes whose maximal runs the launcher's regular expressions match. */
  datatype CharClass = Spaces | Letters | Digits | AmountChars | LineChars | CalcChars

  predicate InClass(c: char, cls: CharClass) {
    match cls
    case Spaces => IsSpace(c)
    case Letters => IsAsciiLetter(c)
    case Digits => IsDigit(c)
    case AmountChars => IsDigit(c) || c == '.' || c == ','
    case LineChars => !IsLineTerminator(c)
    case CalcChars =>
      IsDigit(c) || IsSpace(c) || c == '+' || c == '-' || c == '*' || c == '/' || c == '(' || c == ')' || c == '.' || c == '%'
  }

  /** Every character of `s` lies in `cls`. */
  predicate AllIn(s: string, cls: CharClass) {
    forall k :: 0 <= k < |s| ==> InClass(s[k], cls)
  }

  /** The end of the maximal run of `cls` characters that starts at index `i`. */
  function RunEnd(s: string, i: nat, cls: CharClass): (j: nat)
    requires i <= |s|
    ensures i <= j <= |s|
    ensures AllIn(s[i..j], cls)
    ensures j == |s| || !InClass(s[j], cls)
    ensures AllIn(s[i..], cls) ==> j == |s|
    decreases |s| - i
  {
    if i == |s| then i
    else if !InClass(s[i], cls) then
      assert s[i..][0] == s[i];
      i
    else
      var j := RunEnd(s, i + 1, cls);
      assert s[i..j] == [s[i]] + s[i + 1..j];
      assert s[i + 1..] == s[i..][1..];
      j
  }

  /** A run boundary is determined by the run: any `j` with the two properties of `RunEnd` is `RunEnd`. */
  lemma {:induction false} RunEndUnique(s: string, i: nat, j: nat, cls: CharClass)
    requires i <= j <= |s|
    requires AllIn(s[i..j], cls)
    requires j == |s| || !InClass(s[j], cls)
    ensures RunEnd(s, i, cls) == j
    decreases j - i
  {
    if i < j {
      assert s[i..j][0] == s[i];
      assert s[i + 1..j] == s[i..j][1..];
      RunEndUnique(s, i + 1, j, cls);
    }
  }

  /** `s.trimStart()`: the whitespace at the front removed. */
  function TrimStart(s: string): (r: string)
    ensures |r| <= |s| && r == s[|s| - |r|..]
    ensures AllIn(s[..|s| - |r|], Spaces)
    ensures r == [] || !IsSpace(r[0])
  {
    if s != [] && IsSpace(s[0]) then
      var r := TrimStart(s[1..]);
      assert s[..|s| - |r|] == [s[0]] + s[1..][..|s| - 1 - |r|];
      r
    else s
  }

  /** `s.trimEnd()`: the whitespace at the back removed. */
  function TrimEnd(s: string): (r: string)
    ensures |r| <= |s| && r == s[..|r|]
    ensures AllIn(s[|r|..], Spaces)
    ensures r == [] || !IsSpace(r[|r| - 1])
  {
    if s != [] && IsSpace(s[|s| - 1]) then
      var r := TrimEnd(s[..|s| - 1]);
      assert s[|r|..] == s[..|s| - 1][|r|..] + [s[|s| - 1]];
      r
    else s
  }

  /** `s.trim()`: the whitespace at both ends removed, nothing else. */
  function Trim(s: string): (r: string)
    ensures r == [] || (!IsSpace(r[0]) && !IsSpace(r[|r| - 1]))
    ensures r == [] <==> AllSpace(s)
    ensures exists i, j :: 0 <= i <= j <= |s| && r == s[i..j] && AllIn(s[..i], Spaces) && AllIn(s[j..], Spaces)
  {
    var front := TrimStart(s);
    var r := TrimEnd(front);
    var i := |s| - |front|;
    TrimPieces(s, front, r, i);
    TrimBlank(s);
    r
  }

  /** Where `trimEnd(trimStart(s))` sits in `s`: after the leading whitespace, before the trailing. */
  lemma TrimPieces(s: string, front: string, r: string, i: nat)
    requires front == TrimStart(s) && r == TrimEnd(front) && i == |s| - |front|
    ensures i <= i + |r| <= |s|
    ensures r == s[i..i + |r|]
    ensures AllIn(s[..i], Spaces)
    ensures AllIn(s[i + |r|..], Spaces)
  {
    TailOfTail(s, front, r, i);
  }

  /** A prefix `r` of the suffix `front == s[i..]` whose rest is whitespace sits at `i` in `s`, with whitespace after it. */
  lemma TailOfTail(s: string, front: string, r: string, i: nat)
    requires i <= |s| && front == s[i..]
    requires |r| <= |front| && r == front[..|r|] && AllIn(front[|r|..], Spaces)
    ensures r == s[i..i + |r|]
    ensures AllIn(s[i + |r|..], Spaces)
  {
    assert s[i + |r|..] == front[|r|..];
  }

  /** `trimEnd(trimStart(s))` is empty exactly when `s` is all whitespace. */
  lemma TrimBlank(s: string)
    ensures TrimEnd(TrimStart(s)) == [] <==> AllSpace(s)
  {
    var front := TrimStart(s);
    var i := |s| - |front|;
    if AllSpace(s) {
      BlankTrimsStart(s);
    } else {
      TrimEndKeepsNonBlank(front);
      if TrimEnd(front) == [] {
        forall k | 0 <= k < |s| ensures IsSpace(s[k]) {
          assert s[..i][k] == s[k];
        }
      }
    }
  }

  /** `trimEnd` of a string that starts with a non-space leaves something. */
  lemma TrimEndKeepsNonBlank(s: string)
    requires s == [] || !IsSpace(s[0])
    ensures TrimEnd(s) == [] ==> s == []
  {
  }

  /** Whitespace in front of a string does not change what `trimStart` gives. */
  lemma {:induction false} TrimStartDropsSpaces(s: string, p: nat)
    requires p <= |s| && AllIn(s[..p], Spaces)
    ensures TrimStart(s[p..]) == TrimStart(s)
    decreases p
  {
    if p > 0 {
      assert s[0] == s[..p][0];
      assert s[1..][..p - 1] == s[1..p];
      assert forall k :: 0 <= k < p - 1 ==> s[1..p][k] == s[..p][k + 1];
      TrimStartDropsSpaces(s[1..], p - 1);
      assert s[1..][p - 1..] == s[p..];
    }
  }

  /** Whitespace in front of a string does not change what `trim` gives. */
  lemma TrimDropsLeadingSpaces(s: string, p: nat)
    requires p <= |s| && AllIn(s[..p], Spaces)
    ensures Trim(s[p..]) == Trim(s)
  {
    TrimStartDropsSpaces(s, p);
  }

  /** A string that is all whitespace loses everything to `trimStart`. */
  lemma {:induction false} BlankTrimsStart(s: string)
    requires AllSpace(s)
    ensures TrimStart(s) == []
    decreases |s|
  {
    if s != [] {
      BlankTrimsStart(s[1..]);
    }
  }

  /** The end of a run lies at or past every point up to which the run's class holds. */
  lemma {:induction false} RunEndCovers(s: string, i: nat, j: nat, cls: CharClass)
    requires i <= j <= |s| && AllIn(s[i..j], cls)
    ensures RunEnd(s, i, cls) >= j
    decreases j - i
  {
    if i < j {
      assert s[i..j][0] == s[i];
      assert s[i + 1..j] == s[i..j][1..];
      RunEndCovers(s, i + 1, j, cls);
    }
  }

  /** The string is all whitespace (and so trims to the empty string). */
  predicate AllSpace(s: string) {
    AllIn(s, Spaces)
  }
}
