/** src/Utils.cpp: character classifiers, the name look-ups and the verbose flag. */
module Utils {
  import opened IntWidth

  /** Arduino `String::operator[]`: reading past the end yields the NUL character. */
  function CharAt(s: string, i: nat): char
  {
    if i < |s| then s[i] else '\0'
  }

  /** `isDigit`: a decimal digit, or '-' or '.' so that negative and float numbers are accepted. */
  function IsDigit(c: char): (b: bool)
    ensures b <==> c == '-' || c == '.' || ('0' <= c <= '9')
  {
    '-' <= c <= '9' && c != '/'
  }

  /** `isNumber`: only the first character is inspected. */
  function IsNumber(s: string): (b: bool)
    ensures b <==> |s| > 0 && IsDigit(s[0])
  {
    IsDigit(CharAt(s, 0))
  }

  lemma OnlyFirstCharacterCounts()
    ensures IsNumber("1abc") && IsNumber("-") && IsNumber(".x")
    ensures !IsNumber("") && !IsNumber("a1") && !IsNumber("/5")
  {
  }

  /** Index of the first occurrence of `s` in `names`, or |names| when there is none. */
  function FirstIndex(names: seq<string>, s: string): (r: nat)
    ensures r <= |names|
    ensures r < |names| ==> names[r] == s
    ensures forall j :: 0 <= j < r ==> names[j] != s
    ensures r == |names| <==> s !in names
  {
    if names == [] then 0
    else if names[0] == s then 0
    else 1 + FirstIndex(names[1..], s)
  }

  /** The early-exit linear search shared by the name look-ups: `for k < |names| if match break`. */
  method LinearSearch(names: seq<string>, s: string) returns (k: nat)
    ensures k == FirstIndex(names, s)
  {
    k := 0;
    while k < |names| && names[k] != s
      invariant k <= |names|
      invariant forall j :: 0 <= j < k ==> names[j] != s
    {
      k := k + 1;
    }
    FirstIndexIsFirst(names, s, k);
  }

  /** The first-occurrence index is the unique position of `s` with no earlier occurrence. */
  lemma {:induction false} FirstIndexIsFirst(names: seq<string>, s: string, k: nat)
    requires k <= |names|
    requires k < |names| ==> names[k] == s
    requires forall j :: 0 <= j < k ==> names[j] != s
    ensures k == FirstIndex(names, s)
  {
    if names != [] && k > 0 {
      FirstIndexIsFirst(names[1..], s, k - 1);
    }
  }

  /** `getIndexLaserFromName`: the index of the first matching laser name, or 0 when none matches.
    * The uint8_t loop counter bounds the table to 255 names; the index is returned as int8_t. */
  method GetIndexLaserFromName(laserNames: seq<string>, s: string) returns (index: int)
    requires |laserNames| <= 255
    ensures s in laserNames ==> index == WrapInt8(FirstIndex(laserNames, s))
    ensures s !in laserNames ==> index == 0
    ensures |laserNames| <= 128 && s in laserNames ==> 0 <= index < |laserNames| && laserNames[index] == s
  {
    var k := LinearSearch(laserNames, s);
    index := if k < |laserNames| then WrapInt8(k) else 0;
  }

  /** `getIndexClassFromName`: the index of the first matching module class name, or 0. */
  method GetIndexClassFromName(classNames: seq<string>, s: string) returns (index: int)
    requires |classNames| <= 255
    ensures s in classNames ==> index == WrapInt8(FirstIndex(classNames, s))
    ensures s !in classNames ==> index == 0
    ensures |classNames| <= 128 && s in classNames ==> 0 <= index < |classNames| && classNames[index] == s
  {
    var k := LinearSearch(classNames, s);
    index := if k < |classNames| then WrapInt8(k) else 0;
  }

  /** The global `Utils::verboseMode` flag. */
  class Verbosity {
    var verboseMode: bool

    constructor (defaultMode: bool)
      ensures verboseMode == defaultMode
    {
      verboseMode := defaultMode;
    }

    method SetVerboseMode(active: bool)
      modifies this
      ensures verboseMode == active
    {
      verboseMode := active;
    }
  }
}
