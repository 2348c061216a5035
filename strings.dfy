/** String helpers the TypeScript code gets from the JavaScript runtime and Node's `path`:
    decimal rendering of numbers, `trim`, `split`, the `/\/+$/` replacement and `basename`. */
module Strings {

  // ---------------------------------------------------------------------------
  // Decimal rendering (`String(n)`, template literals on integers)
  // ---------------------------------------------------------------------------

  predicate IsDigit(c: char) {
    '0' <= c <= '9'
  }

  function DigitChar(d: nat): (c: char)
    requires d < 10
    ensures IsDigit(c) && c as int - '0' as int == d
  {
    ['0', '1', '2', '3', '4', '5', '6', '7', '8', '9'][d]
  }

  /** The decimal digits of `n`, most significant first, without leading zeros. */
  function NatToString(n: nat): (s: string)
    ensures |s| >= 1
    ensures forall i :: 0 <= i < |s| ==> IsDigit(s[i])
    ensures s[0] == '0' ==> n == 0
    decreases n
  {
    if n < 10 then [DigitChar(n)] else NatToString(n / 10) + [DigitChar(n % 10)]
  }

  /** Reads a string of decimal digits back as a number. */
  function DigitsValue(s: string): nat
    requires forall i :: 0 <= i < |s| ==> IsDigit(s[i])
  {
    if s == [] then 0
    else
      assert IsDigit(s[|s| - 1]);
      DigitsValue(s[..|s| - 1]) * 10 + (s[|s| - 1] as int - '0' as int)
  }

  /** The rendering can be read back, so different numbers render differently. */
  lemma {:induction false} NatToStringRoundTrip(n: nat)
    ensures DigitsValue(NatToString(n)) == n
    decreases n
  {
    var s := NatToString(n);
    if n >= 10 {
      NatToStringRoundTrip(n / 10);
      assert s[..|s| - 1] == NatToString(n / 10);
    }
  }

  lemma NatToStringInjective(m: nat, n: nat)
    requires NatToString(m) == NatToString(n)
    ensures m == n
  {
    NatToStringRoundTrip(m);
    NatToStringRoundTrip(n);
  }

  function IntToString(i: int): string {
    if i < 0 then "-" + NatToString(-i) else NatToString(i)
  }

  // ---------------------------------------------------------------------------
  // Prefixes, suffixes, membership
  // ---------------------------------------------------------------------------

  predicate StartsWith(s: string, prefix: string) {
    |prefix| <= |s| && s[..|prefix|] == prefix
  }

  predicate EndsWith(s: string, suffix: string) {
    |suffix| <= |s| && s[|s| - |suffix|..] == suffix
  }

  function Count(s: string, c: char): nat {
    if s == [] then 0 else (if s[0] == c then 1 else 0) + Count(s[1..], c)
  }

  // ---------------------------------------------------------------------------
  // String.prototype.trim
  // ---------------------------------------------------------------------------

  /** ECMAScript WhiteSpace and LineTerminator code points, the set `trim` removes. */
  predicate IsWhitespace(c: char) {
    || c == '\t' || c == '\n' || c == '\U{000B}' || c == '\U{000C}' || c == '\r' || c == ' '
    || c == '\U{00A0}' || c == '\U{1680}' || ('\U{2000}' <= c <= '\U{200A}')
    || c == '\U{2028}' || c == '\U{2029}' || c == '\U{202F}' || c == '\U{205F}'
    || c == '\U{3000}' || c == '\U{FEFF}'
  }

  /** `s` without its leading whitespace: a suffix of `s`, everything cut off is whitespace. */
  function TrimStart(s: string): (r: string)
    ensures |r| <= |s| && r == s[|s| - |r|..]
    ensures forall k :: 0 <= k < |s| - |r| ==> IsWhitespace(s[k])
    ensures r != [] ==> !IsWhitespace(r[0])
    decreases |s|
  {
    if s != [] && IsWhitespace(s[0]) then TrimStart(s[1..]) else s
  }

  /** `s` without its trailing whitespace: a prefix of `s`, everything cut off is whitespace. */
  function TrimEnd(s: string): (r: string)
    ensures |r| <= |s| && r == s[..|r|]
    ensures forall k :: |r| <= k < |s| ==> IsWhitespace(s[k])
    ensures r != [] ==> !IsWhitespace(r[|r| - 1])
    decreases |s|
  {
    if s != [] && IsWhitespace(s[|s| - 1]) then TrimEnd(s[..|s| - 1]) else s
  }

  function Trim(s: string): string {
    TrimEnd(TrimStart(s))
  }

  /** Cutting whitespace off the front of `s` and then off the back of what remains leaves an infix of `s`. */
  lemma InfixAfterCuts(s: string, t: string, e: string) returns (i: nat, j: nat)
    requires |t| <= |s| && t == s[|s| - |t|..]
    requires forall k :: 0 <= k < |s| - |t| ==> IsWhitespace(s[k])
    requires t != [] ==> !IsWhitespace(t[0])
    requires |e| <= |t| && e == t[..|e|]
    requires forall k :: |e| <= k < |t| ==> IsWhitespace(t[k])
    requires e != [] ==> !IsWhitespace(e[|e| - 1])
    ensures i <= j <= |s| && e == s[i..j]
    ensures forall k :: 0 <= k < i ==> IsWhitespace(s[k])
    ensures forall k :: j <= k < |s| ==> IsWhitespace(s[k])
    ensures i < j ==> !IsWhitespace(s[i]) && !IsWhitespace(s[j - 1])
  {
    i := |s| - |t|;
    j := i + |e|;
    forall k | j <= k < |s|
      ensures IsWhitespace(s[k])
    {
      assert s[k] == t[k - i];
    }
    if i < j {
      assert s[i] == t[0] == e[0];
      assert s[j - 1] == e[|e| - 1];
    }
  }

  /** `Trim(s)` is the infix `s[i..j]` whose margins are whitespace and whose end points are not. */
  lemma TrimIsInfix(s: string) returns (i: nat, j: nat)
    ensures i <= j <= |s| && Trim(s) == s[i..j]
    ensures forall k :: 0 <= k < i ==> IsWhitespace(s[k])
    ensures forall k :: j <= k < |s| ==> IsWhitespace(s[k])
    ensures i < j ==> !IsWhitespace(s[i]) && !IsWhitespace(s[j - 1])
  {
    var t := TrimStart(s);
    i, j := InfixAfterCuts(s, t, TrimEnd(t));
  }

  // ---------------------------------------------------------------------------
  // String.prototype.split on a one-character separator, and its inverse
  // ---------------------------------------------------------------------------

  /** `s.split(sep)`: the pieces between separators, empty pieces kept. */
  function Split(s: string, sep: char): (r: seq<string>)
    ensures |r| >= 1
    decreases |s|
  {
    if s == [] then [""]
    else
      var rest := Split(s[1..], sep);
      if s[0] == sep then [""] + rest else [[s[0]] + rest[0]] + rest[1..]
  }

  /** `parts.join(sep)`. */
  function Join(parts: seq<string>, sep: char): string {
    if |parts| == 0 then ""
    else if |parts| == 1 then parts[0]
    else parts[0] + [sep] + Join(parts[1..], sep)
  }

  lemma {:induction false} JoinConsChar(c: char, parts: seq<string>, sep: char)
    requires |parts| >= 1
    ensures Join([[c] + parts[0]] + parts[1..], sep) == [c] + Join(parts, sep)
  {
    var q := [[c] + parts[0]] + parts[1..];
    assert q[1..] == parts[1..];
  }

  /** Joining the pieces with the separator gives the original string back. */
  lemma {:induction false} SplitJoin(s: string, sep: char)
    ensures Join(Split(s, sep), sep) == s
    decreases |s|
  {
    if s != [] {
      var rest := Split(s[1..], sep);
      SplitJoin(s[1..], sep);
      if s[0] == sep {
        assert ([""] + rest)[1..] == rest;
        assert s == [sep] + s[1..];
      } else {
        JoinConsChar(s[0], rest, sep);
        assert s == [s[0]] + s[1..];
      }
    }
  }

  /** There is one more piece than separators, and no piece holds the separator. */
  lemma {:induction false} SplitPieces(s: string, sep: char)
    ensures |Split(s, sep)| == Count(s, sep) + 1
    ensures forall k :: 0 <= k < |Split(s, sep)| ==> Count(Split(s, sep)[k], sep) == 0
    decreases |s|
  {
    if s != [] {
      SplitPieces(s[1..], sep);
      var rest := Split(s[1..], sep);
      if s[0] != sep {
        var head := [s[0]] + rest[0];
        assert head[1..] == rest[0];
        assert Count(head, sep) == 0;
      }
    }
  }

  // ---------------------------------------------------------------------------
  // `replace(/\/+$/, '')` and `path.basename(p, ext)` (POSIX)
  // ---------------------------------------------------------------------------

  /** `s` with every trailing '/' removed. */
  function StripTrailingSlashes(s: string): (r: string)
    ensures |r| <= |s| && r == s[..|r|]
    ensures forall k :: |r| <= k < |s| ==> s[k] == '/'
    ensures r == [] || r[|r| - 1] != '/'
    decreases |s|
  {
    if s != [] && s[|s| - 1] == '/' then StripTrailingSlashes(s[..|s| - 1]) else s
  }

  /** Extra trailing slashes make no difference: `https://h/` and `https://h` give the same base URL. */
  lemma StripTrailingSlashesAbsorbs(s: string)
    ensures StripTrailingSlashes(s + "/") == StripTrailingSlashes(s)
  {
    assert (s + "/")[..|s|] == s;
  }

  /** What follows the last '/' of `s` (all of `s` when it has none). */
  function LastSegment(s: string): (r: string)
    ensures Count(r, '/') == 0
    decreases |s|
  {
    if s == [] || s[|s| - 1] == '/' then []
    else
      var init := LastSegment(s[..|s| - 1]);
      CountAppend(init, s[|s| - 1], '/');
      init + [s[|s| - 1]]
  }

  lemma {:induction false} CountAppend(s: string, c: char, x: char)
    ensures Count(s + [c], x) == Count(s, x) + (if c == x then 1 else 0)
    decreases |s|
  {
    if s != [] {
      assert (s + [c])[1..] == s[1..] + [c];
      CountAppend(s[1..], c, x);
    }
  }

  /** Node's `path.basename(path, ext)`: the last segment after trailing slashes are dropped, with `ext`
      removed when the segment ends with it and is longer than it; a path equal to `ext` gives "". */
  function Basename(path: string, ext: string): (r: string)
    ensures Count(r, '/') == 0
  {
    if ext != "" && path == ext then ""
    else
      var segment := LastSegment(StripTrailingSlashes(path));
      if ext != "" && |segment| > |ext| && EndsWith(segment, ext) then
        CountPrefix(segment, |segment| - |ext|, '/');
        segment[..|segment| - |ext|]
      else segment
  }

  lemma {:induction false} CountPrefix(s: string, n: nat, x: char)
    requires n <= |s| && Count(s, x) == 0
    ensures Count(s[..n], x) == 0
    decreases |s|
  {
    if n > 0 {
      assert s[..n][1..] == s[1..][..n - 1];
      CountPrefix(s[1..], n - 1, x);
    }
  }

  lemma {:induction false} LastSegmentOfJoin(dir: string, name: string)
    requires Count(name, '/') == 0
    ensures LastSegment(dir + "/" + name) == name
    decreases |name|
  {
    if name == [] {
      assert (dir + "/" + name)[|dir + "/" + name| - 1] == '/';
    } else {
      var init := name[..|name| - 1];
      CountPrefix(name, |name| - 1, '/');
      assert name[|name| - 1] != '/' by {
        CountAppend(init, name[|name| - 1], '/');
        assert init + [name[|name| - 1]] == name;
      }
      LastSegmentOfJoin(dir, init);
      assert (dir + "/" + name)[..|dir + "/" + name| - 1] == dir + "/" + init;
      assert init + [name[|name| - 1]] == name;
    }
  }

  /** The name of a file `dir/stem.json` is `stem`, for a non-empty stem without '/'. */
  lemma BasenameOfJsonFile(dir: string, stem: string)
    requires stem != "" && Count(stem, '/') == 0
    ensures Basename(dir + "/" + stem + ".json", ".json") == stem
  {
    var file := stem + ".json";
    var path := dir + "/" + file;
    assert Count(".json", '/') == 0;
    CountConcat(stem, ".json", '/');
    assert path == dir + "/" + stem + ".json";
    assert StripTrailingSlashes(path) == path;
    LastSegmentOfJoin(dir, file);
    assert file[|file| - 5..] == ".json";
    assert file[..|file| - 5] == stem;
  }

  lemma {:induction false} CountConcat(a: string, b: string, x: char)
    ensures Count(a + b, x) == Count(a, x) + Count(b, x)
    decreases |a|
  {
    if a == [] {
      assert a + b == b;
    } else {
      assert (a + b)[1..] == a[1..] + b;
      CountConcat(a[1..], b, x);
    }
  }
}
