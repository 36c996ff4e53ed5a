/**
 * The string helpers of the module's global helper file: the ROT13 unmasking
 * used for obfuscated hosts and client names, path separator normalisation,
 * repeated line breaks and the fixed module name.
 */
module Helpers {

  /** ROT13 of one character: ASCII letters rotate by 13 within their case, everything else is kept. */
  function Rot13Char(c: char): (r: char)
    ensures ('a' <= c <= 'z') <==> ('a' <= r <= 'z')
    ensures ('A' <= c <= 'Z') <==> ('A' <= r <= 'Z')
    ensures !('a' <= c <= 'z') && !('A' <= c <= 'Z') ==> r == c
    ensures 'a' <= c <= 'z' ==> r as int - 'a' as int == (c as int - 'a' as int + 13) % 26
    ensures 'A' <= c <= 'Z' ==> r as int - 'A' as int == (c as int - 'A' as int + 13) % 26
  {
    if 'a' <= c <= 'z' then
      (((c as int - 'a' as int + 13) % 26) + 'a' as int) as char
    else if 'A' <= c <= 'Z' then
      (((c as int - 'A' as int + 13) % 26) + 'A' as int) as char
    else c
  }

  /** Rotating a character twice gives it back. */
  lemma Rot13CharInvolution(c: char)
    ensures Rot13Char(Rot13Char(c)) == c
  {
    if 'a' <= c <= 'z' {
      var k := c as int - 'a' as int;
      assert Rot13Char(c) as int - 'a' as int == (k + 13) % 26;
    } else if 'A' <= c <= 'Z' {
      var k := c as int - 'A' as int;
      assert Rot13Char(c) as int - 'A' as int == (k + 13) % 26;
    }
  }

  /** unmaskString: the ROT13 transform, applied character by character. */
  function UnmaskString(s: string): (r: string)
    ensures |r| == |s|
  {
    seq(|s|, i requires 0 <= i < |s| => Rot13Char(s[i]))
  }

  /** Unmasking s gives t exactly when t rotates s character by character (used to decode literal hosts). */
  lemma UnmaskStringPointwise(s: string, t: string)
    requires |s| == |t|
    requires forall i :: 0 <= i < |s| ==> Rot13Char(s[i]) == t[i]
    ensures UnmaskString(s) == t
  {
  }

  /** Characters that are not ASCII letters (':', '/', '.', digits, ...) pass through unchanged. */
  lemma UnmaskStringKeepsNonLetters(s: string, i: nat)
    requires i < |s|
    requires !('a' <= s[i] <= 'z') && !('A' <= s[i] <= 'Z')
    ensures UnmaskString(s)[i] == s[i]
  {
  }

  /** ROT13 is its own inverse: unmasking twice returns the original string. */
  lemma UnmaskStringInvolution(s: string)
    ensures UnmaskString(UnmaskString(s)) == s
  {
    forall i | 0 <= i < |s|
      ensures UnmaskString(UnmaskString(s))[i] == s[i]
    {
      Rot13CharInvolution(s[i]);
    }
  }

  /** The line break used in messages: the platform end of line on the console, an HTML break otherwise. */
  const EOL: string := "\n"
  const HTML_BREAK: string := "<br />"

  function BreakString(isConsole: bool): string {
    if isConsole then EOL else HTML_BREAK
  }

  /** str_repeat: n copies of s. */
  function Repeat(s: string, n: nat): (r: string)
  {
    if n == 0 then "" else s + Repeat(s, n - 1)
  }

  lemma {:induction false} RepeatLength(s: string, n: nat)
    ensures |Repeat(s, n)| == n * |s|
  {
    if n > 0 {
      RepeatLength(s, n - 1);
    }
  }

  /** Repeating a + b times is repeating a times followed by repeating b times. */
  lemma {:induction false} RepeatAdd(s: string, a: nat, b: nat)
    ensures Repeat(s, a + b) == Repeat(s, a) + Repeat(s, b)
  {
    if a > 0 {
      RepeatAdd(s, a - 1, b);
    }
  }

  /** n copies of s repeat with period |s|: each character equals the one |s| further on. */
  lemma {:induction false} RepeatPeriodic(s: string, n: nat, i: nat)
    requires i + |s| < |Repeat(s, n)|
    ensures Repeat(s, n)[i + |s|] == Repeat(s, n)[i]
  {
    var rest := Repeat(s, n - 1);
    assert Repeat(s, n) == s + rest;
    if i >= |s| {
      RepeatPeriodic(s, n - 1, i - |s|);
    } else {
      assert rest == s + Repeat(s, n - 2);
    }
  }

  /** breakLine(multiplier): the break string repeated multiplier times. */
  function BreakLine(isConsole: bool, multiplier: nat): (r: string)
    ensures |r| == multiplier * |BreakString(isConsole)|
    ensures multiplier == 0 <==> r == ""
    ensures multiplier > 0 ==> r[..|BreakString(isConsole)|] == BreakString(isConsole)
    ensures forall i, j :: 0 <= i < j < |r| && j == i + |BreakString(isConsole)| ==> r[j] == r[i]
  {
    var b := BreakString(isConsole);
    RepeatLength(b, multiplier);
    forall i, j | 0 <= i < j < |Repeat(b, multiplier)| && j == i + |b|
      ensures Repeat(b, multiplier)[j] == Repeat(b, multiplier)[i]
    {
      RepeatPeriodic(b, multiplier, i);
    }
    Repeat(b, multiplier)
  }

  /** With its default multiplier of 1, breakLine is the break string itself. */
  lemma BreakLineDefault(isConsole: bool)
    ensures BreakLine(isConsole, 1) == BreakString(isConsole)
  {
    assert Repeat(BreakString(isConsole), 0) == "";
  }

  /** getModuleName: the module's fixed technical name. */
  function ModuleName(): (r: string)
    ensures r == "placetopaypayment"
  {
    "placetopaypayment"
  }

  /** str_replace of one character by another. */
  function ReplaceChar(s: string, from: char, to: char): (r: string)
    ensures |r| == |s|
  {
    if s == [] then [] else [if s[0] == from then to else s[0]] + ReplaceChar(s[1..], from, to)
  }

  lemma {:induction false} ReplaceCharAt(s: string, from: char, to: char, i: nat)
    requires i < |s|
    ensures ReplaceChar(s, from, to)[i] == if s[i] == from then to else s[i]
  {
    if i > 0 {
      ReplaceCharAt(s[1..], from, to, i - 1);
    }
  }

  /**
   * fixPath: replace every backslash, then every slash, by the directory
   * separator (str_replace with an array of search strings works left to right).
   */
  function FixPath(path: string, separator: char): (r: string)
    ensures |r| == |path|
  {
    ReplaceChar(ReplaceChar(path, '\\', separator), '/', separator)
  }

  /** Every slash or backslash becomes the separator and every other character is kept. */
  lemma FixPathAt(path: string, separator: char, i: nat)
    requires i < |path|
    ensures FixPath(path, separator)[i] ==
            if path[i] == '\\' || path[i] == '/' then separator else path[i]
  {
    ReplaceCharAt(path, '\\', separator, i);
    ReplaceCharAt(ReplaceChar(path, '\\', separator), '/', separator, i);
  }

  /** After fixPath the only path separators left are the chosen one. */
  lemma FixPathOnlySeparator(path: string, separator: char, i: nat)
    requires i < |path|
    requires FixPath(path, separator)[i] == '\\' || FixPath(path, separator)[i] == '/'
    ensures FixPath(path, separator)[i] == separator
  {
    FixPathAt(path, separator, i);
  }

  /** fixPath is idempotent, whatever the separator. */
  lemma FixPathIdempotent(path: string, separator: char)
    ensures FixPath(FixPath(path, separator), separator) == FixPath(path, separator)
  {
    var once := FixPath(path, separator);
    forall i | 0 <= i < |path|
      ensures FixPath(once, separator)[i] == once[i]
    {
      FixPathAt(path, separator, i);
      FixPathAt(once, separator, i);
    }
  }
}
