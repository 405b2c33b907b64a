/** String helpers of the JavaScript runtime that the backend relies on:
    `startsWith`, substring search, `split(' ')[1]`, `substring`, `join`,
    ASCII case mapping, `replace(/\\/g, "/")`, Node's `path.extname`,
    unanchored regular-expression alternations and number formatting. */
module Text {
  import opened Common

  predicate StartsWith(s: string, p: string) {
    |p| <= |s| && s[..|p|] == p
  }

  /** `s.includes(p)`: p occurs somewhere in s. */
  predicate Contains(s: string, p: string) {
    exists i | 0 <= i <= |s| - |p| :: OccursAt(s, p, i)
  }

  predicate OccursAt(s: string, p: string, i: nat) {
    i + |p| <= |s| && s[i..i + |p|] == p
  }

  lemma ContainsPrefix(s: string, p: string)
    requires StartsWith(s, p)
    ensures Contains(s, p)
  {
    assert OccursAt(s, p, 0);
  }

  lemma ContainsInside(a: string, p: string, b: string)
    ensures Contains(a + p + b, p)
  {
    var s := a + p + b;
    assert OccursAt(s, p, |a|);
  }

  /** `s.substring(0, n)`: the first n characters, or all of s when it is shorter. */
  function Take(s: string, n: nat): (r: string)
    ensures |r| == if n <= |s| then n else |s|
    ensures StartsWith(s, r)
  {
    if n <= |s| then s[..n] else s
  }

  /** JavaScript's `length`: the number of UTF-16 code units, two for a
      character outside the Basic Multilingual Plane (an emoji, say). */
  function Utf16Length(s: string): (n: nat)
    ensures |s| <= n <= 2 * |s|
    ensures n == |s| <==> forall i :: 0 <= i < |s| ==> s[i] as int <= 0xFFFF
  {
    if s == [] then 0
    else
      assert forall i :: 1 <= i < |s| ==> s[1..][i - 1] == s[i];
      (if s[0] as int <= 0xFFFF then 1 else 2) + Utf16Length(s[1..])
  }

  /** The UTF-16 length of a concatenation is the sum of the lengths. */
  lemma {:induction false} Utf16LengthAppend(a: string, b: string)
    ensures Utf16Length(a + b) == Utf16Length(a) + Utf16Length(b)
  {
    if a == [] {
      assert a + b == b;
    } else {
      assert (a + b)[0] == a[0];
      assert (a + b)[1..] == a[1..] + b;
      Utf16LengthAppend(a[1..], b);
    }
  }

  /** The first index of character c in s, if any. */
  function IndexOf(s: string, c: char): (r: Option<nat>)
    ensures r.None? <==> c !in s
    ensures r.Some? ==> r.value < |s| && s[r.value] == c && c !in s[..r.value]
  {
    if s == [] then None
    else if s[0] == c then Some(0)
    else
      var t := IndexOf(s[1..], c);
      if t.None? then None else Some(t.value + 1)
  }

  /** The characters of s before the first c (all of s when there is none). */
  function Before(s: string, c: char): (r: string)
    ensures StartsWith(s, r) && c !in r
    ensures |r| < |s| ==> s[|r|] == c
  {
    var i := IndexOf(s, c);
    if i.None? then s else s[..i.value]
  }

  /** `s.split(' ')[1]`: the second space-separated field, undefined when s
      has no space. */
  function SecondField(s: string): (r: Option<string>)
    ensures r.None? <==> ' ' !in s
    ensures r.Some? ==> ' ' !in r.value
  {
    var i := IndexOf(s, ' ');
    if i.None? then None else Some(Before(s[i.value + 1..], ' '))
  }

  /** Splitting a header written as two fields separated by one space returns
      the second field. */
  lemma {:induction false} SecondFieldOfPair(a: string, b: string)
    requires ' ' !in a && ' ' !in b
    ensures SecondField(a + " " + b) == Some(b)
  {
    var s := a + " " + b;
    IndexOfAfterFree(a, " " + b, ' ');
    assert s[|a| + 1..] == b;
  }

  lemma IndexOfAfterFree(a: string, b: string, c: char)
    requires c !in a && b != [] && b[0] == c
    ensures IndexOf(a + b, c) == Some(|a|)
  {
    assert (a + b)[|a|] == c;
  }

  /** `lines.join(sep)`. */
  function Join(lines: seq<string>, sep: string): string {
    if lines == [] then ""
    else if |lines| == 1 then lines[0]
    else Join(lines[..|lines| - 1], sep) + sep + lines[|lines| - 1]
  }

  lemma JoinAppend(lines: seq<string>, line: string, sep: string)
    requires lines != []
    ensures Join(lines + [line], sep) == Join(lines, sep) + sep + line
  {
    assert (lines + [line])[..|lines|] == lines;
  }

  // ---------------------------------------------------------------------
  // Case mapping (ASCII letters; the runtime's full Unicode tables are not modelled)

  function LowerChar(c: char): char {
    if 'A' <= c <= 'Z' then (c as int + 32) as char else c
  }

  function UpperChar(c: char): char {
    if 'a' <= c <= 'z' then (c as int - 32) as char else c
  }

  /** `s.toLowerCase()`. */
  function ToLower(s: string): (r: string)
    ensures |r| == |s|
    ensures forall i :: 0 <= i < |s| ==> r[i] == LowerChar(s[i])
  {
    seq(|s|, i requires 0 <= i < |s| => LowerChar(s[i]))
  }

  lemma ToLowerIdempotent(s: string)
    ensures ToLower(ToLower(s)) == ToLower(s)
  {
  }

  // ---------------------------------------------------------------------
  // Path normalisation

  /** `s.replace(/\\/g, "/")`: every backslash becomes a forward slash. */
  function ForwardSlashes(s: string): (r: string)
    ensures |r| == |s|
    ensures '\\' !in r
    ensures forall i :: 0 <= i < |s| ==> r[i] == if s[i] == '\\' then '/' else s[i]
  {
    seq(|s|, i requires 0 <= i < |s| => if s[i] == '\\' then '/' else s[i])
  }

  /** A path already written with forward slashes is left unchanged. */
  lemma ForwardSlashesIdempotent(s: string)
    ensures ForwardSlashes(ForwardSlashes(s)) == ForwardSlashes(s)
  {
  }

  /** The path with its trailing '/' characters removed. */
  function TrimTrailingSlashes(p: string): (r: string)
    ensures StartsWith(p, r)
    ensures r == [] || r[|r| - 1] != '/'
  {
    if p != [] && p[|p| - 1] == '/' then TrimTrailingSlashes(p[..|p| - 1]) else p
  }

  /** The characters after the last occurrence of c (all of s when there is none). */
  function AfterLast(s: string, c: char): (r: string)
    ensures c !in r
    ensures |r| <= |s| && r == s[|s| - |r|..]
    ensures |r| < |s| ==> s[|s| - |r| - 1] == c
  {
    if s == [] then []
    else if s[|s| - 1] == c then []
    else AfterLast(s[..|s| - 1], c) + [s[|s| - 1]]
  }

  /** The last path segment (`path.basename` without a suffix argument). */
  function BaseName(p: string): (r: string)
    ensures '/' !in r
  {
    AfterLast(TrimTrailingSlashes(p), '/')
  }

  /** Node's `path.extname` (POSIX rules): from the last '.' of the last
      segment to its end; "" when the segment has no dot, when its only dot
      is its first character (".profile"), or when the segment is "..". */
  function ExtName(p: string): (r: string)
    ensures r == [] || (r[0] == '.' && '/' !in r && '.' !in r[1..])
  {
    var b := BaseName(p);
    var tail := AfterLast(b, '.');
    if |tail| == |b| then []
    else
      var d := |b| - |tail| - 1;
      if d == 0 || b == ".." then []
      else b[d..]
  }

  /** A file name made of a stem and an extension without dots has that extension. */
  lemma ExtNameOfName(stem: string, ext: string)
    requires stem != [] && '/' !in stem && stem != "."
    requires '/' !in ext && '.' !in ext
    ensures ExtName(stem + "." + ext) == "." + ext
  {
    var p := (stem + ".") + ext;
    NoSlashJoined(stem, ext);
    BaseNameOfSegment(p);
    var b := BaseName(p);
    AfterLastSuffix(stem + ".", ext, '.');
    var tail := AfterLast(b, '.');
    assert tail == ext;
    var d := |b| - |tail| - 1;
    assert d == |stem|;
    assert b != ".." by {
      if ext == [] { assert p == stem + "."; }
    }
    assert b[d..] == "." + ext;
    assert ExtName(p) == b[d..];
  }

  lemma NoSlashJoined(stem: string, ext: string)
    requires '/' !in stem && '/' !in ext
    ensures '/' !in (stem + ".") + ext
  {
    var p := (stem + ".") + ext;
    forall i | 0 <= i < |p| ensures p[i] != '/' {
      if i < |stem| { assert p[i] == stem[i]; }
      else if i > |stem| { assert p[i] == ext[i - |stem| - 1]; }
    }
  }

  /** A name without '/' is its own base name. */
  lemma BaseNameOfSegment(p: string)
    requires '/' !in p
    ensures BaseName(p) == p
  {
    if p != [] {
      assert p[|p| - 1] in p;
    }
    assert TrimTrailingSlashes(p) == p;
    AfterLastNoSep(p, '/');
  }

  lemma {:induction false} AfterLastNoSep(s: string, c: char)
    requires c !in s
    ensures AfterLast(s, c) == s
    decreases |s|
  {
    if s != [] {
      AfterLastNoSep(s[..|s| - 1], c);
    }
  }

  lemma {:induction false} AfterLastSuffix(a: string, b: string, c: char)
    requires a != [] && a[|a| - 1] == c && c !in b
    ensures AfterLast(a + b, c) == b
    decreases |b|
  {
    if b == [] {
      assert a + b == a;
    } else {
      assert (a + b)[..|a + b| - 1] == a + b[..|b| - 1];
      AfterLastSuffix(a, b[..|b| - 1], c);
    }
  }

  // ---------------------------------------------------------------------
  // Regular expressions of the form /alt1|alt2|.../ without anchors

  /** One alternative of the pattern matches w character by character; an
      unescaped '.' matches any character other than a line terminator. */
  predicate AltMatches(alt: string, w: string) {
    |alt| == |w| &&
    forall i :: 0 <= i < |w| ==>
      if alt[i] == '.' then w[i] !in "\n\r  " else w[i] == alt[i]
  }

  /** `/alt1|alt2|.../.test(s)`: some alternative matches some substring of s. */
  predicate RegexTest(alts: seq<string>, s: string) {
    exists k, i | 0 <= k < |alts| && 0 <= i <= |s| - |alts[k]| :: AltMatchesAt(alts[k], s, i)
  }

  predicate AltMatchesAt(alt: string, s: string, i: nat) {
    i + |alt| <= |s| && AltMatches(alt, s[i..i + |alt|])
  }

  /** An alternative occurring literally anywhere in s is enough for the test. */
  lemma RegexTestLiteral(alts: seq<string>, k: nat, a: string, b: string)
    requires k < |alts|
    requires forall i :: 0 <= i < |alts[k]| ==> alts[k][i] !in "\n\r  "
    ensures RegexTest(alts, a + alts[k] + b)
  {
    var s := a + alts[k] + b;
    assert s[|a|..|a| + |alts[k]|] == alts[k];
    assert AltMatchesAt(alts[k], s, |a|);
  }

  /** An alternative without '.' matches exactly its own text. */
  lemma AltMatchesLiteral(alt: string, w: string)
    requires '.' !in alt
    ensures AltMatches(alt, w) <==> w == alt
  {
    if AltMatches(alt, w) {
      forall i | 0 <= i < |w| ensures w[i] == alt[i] {
        assert alt[i] in alt;
      }
    }
  }

  /** A pattern made of literal alternatives tests whether s contains one of them. */
  lemma RegexTestLiterals(alts: seq<string>, s: string)
    requires forall k :: 0 <= k < |alts| ==> '.' !in alts[k]
    ensures RegexTest(alts, s) <==> exists k :: 0 <= k < |alts| && Contains(s, alts[k])
  {
    if RegexTest(alts, s) {
      var k, i :| 0 <= k < |alts| && 0 <= i <= |s| - |alts[k]| && AltMatchesAt(alts[k], s, i);
      AltMatchesLiteral(alts[k], s[i..i + |alts[k]|]);
      assert OccursAt(s, alts[k], i);
    }
    if exists k :: 0 <= k < |alts| && Contains(s, alts[k]) {
      var k :| 0 <= k < |alts| && Contains(s, alts[k]);
      var i :| 0 <= i <= |s| - |alts[k]| && OccursAt(s, alts[k], i);
      AltMatchesLiteral(alts[k], s[i..i + |alts[k]|]);
      assert AltMatchesAt(alts[k], s, i);
    }
  }

  // ---------------------------------------------------------------------
  // Number formatting

  function DigitChar(d: nat): char
    requires d < 10
  {
    "0123456789"[d]
  }

  /** The decimal representation of n (`String(n)` / template interpolation). */
  function NatToString(n: nat): (r: string)
    ensures r != []
    ensures forall i :: 0 <= i < |r| ==> '0' <= r[i] <= '9'
  {
    if n < 10 then [DigitChar(n)] else NatToString(n / 10) + [DigitChar(n % 10)]
  }

  /** The decimal value of a string of digits. */
  function DigitsValue(s: string): int
    requires forall i :: 0 <= i < |s| ==> '0' <= s[i] <= '9'
  {
    if s == [] then 0 else 10 * DigitsValue(s[..|s| - 1]) + (s[|s| - 1] as int - '0' as int)
  }

  /** Formatting a number is inverted by reading its digits back. */
  lemma {:induction false} NatToStringValue(n: nat)
    ensures DigitsValue(NatToString(n)) == n
  {
    if n >= 10 {
      var r := NatToString(n);
      assert r[..|r| - 1] == NatToString(n / 10);
      NatToStringValue(n / 10);
    }
  }

  const HexDigits: string := "0123456789abcdef"

  /** Two lowercase hexadecimal digits of a byte (`digest('hex')`, `toString('hex')`). */
  function HexByte(b: nat): (r: string)
    requires b < 256
    ensures |r| == 2
  {
    [HexDigits[b / 16], HexDigits[b % 16]]
  }

  predicate IsHex(s: string) {
    forall i :: 0 <= i < |s| ==> s[i] in HexDigits
  }

  function Hex(bytes: seq<nat>): (r: string)
    requires forall i :: 0 <= i < |bytes| ==> bytes[i] < 256
    ensures |r| == 2 * |bytes|
    ensures IsHex(r)
  {
    if bytes == [] then [] else HexByte(bytes[0]) + Hex(bytes[1..])
  }

  // ---------------------------------------------------------------------
  // Trimming

  /** The characters `String.prototype.trim` removes: white space and line
      terminators. */
  predicate IsSpace(c: char) {
    c in " \t\n\r\U{B}\U{C}\U{A0}\U{FEFF}\U{1680}\U{2028}\U{2029}\U{202F}\U{205F}\U{3000}" ||
    '\U{2000}' <= c <= '\U{200A}'
  }

  function TrimStart(s: string): (r: string)
    ensures |r| <= |s| && r == s[|s| - |r|..]
    ensures r == [] || !IsSpace(r[0])
    ensures r == [] <==> forall i :: 0 <= i < |s| ==> IsSpace(s[i])
  {
    if s != [] && IsSpace(s[0]) then
      var r := TrimStart(s[1..]);
      assert forall i :: 1 <= i < |s| ==> s[i] == s[1..][i - 1];
      r
    else s
  }

  function TrimEnd(s: string): (r: string)
    ensures |r| <= |s| && r == s[..|r|]
    ensures r == [] || !IsSpace(r[|r| - 1])
    ensures r == [] <==> forall i :: 0 <= i < |s| ==> IsSpace(s[i])
  {
    if s != [] && IsSpace(s[|s| - 1]) then
      var r := TrimEnd(s[..|s| - 1]);
      assert forall i :: 0 <= i < |s| - 1 ==> s[i] == s[..|s| - 1][i];
      r
    else s
  }

  /** `s.trim()` (the `trim` schema option): s without leading and trailing
      white space; empty exactly when s is all white space. */
  function Trim(s: string): (r: string)
    ensures |r| <= |s|
    ensures r == [] || (!IsSpace(r[0]) && !IsSpace(r[|r| - 1]))
    ensures r == [] <==> forall i :: 0 <= i < |s| ==> IsSpace(s[i])
  {
    var t := TrimStart(s);
    var r := TrimEnd(t);
    assert r != [] ==> r[0] == t[0];
    assert (forall i :: 0 <= i < |t| ==> IsSpace(t[i])) ==> forall i :: 0 <= i < |s| ==> IsSpace(s[i]) by {
      if t != [] {
        assert !IsSpace(t[0]);
      }
    }
    r
  }
}
