/** Right-justification of a log field in a fixed-width column by
    prepending spaces (`createPaddingString` in src/logger_base.ts). */
module Padding {

  function Max(a: int, b: int): int
  {
    if a >= b then a else b
  }

  /** True when every character of `s` is a space. */
  predicate AllSpaces(s: string)
  {
    forall i :: 0 <= i < |s| ==> s[i] == ' '
  }

  /** A run of `n` spaces; a count of zero or less gives the empty string. */
  function Spaces(n: int): (r: string)
    ensures |r| == Max(n, 0)
    ensures AllSpaces(r)
    decreases n
  {
    if n <= 0 then "" else " " + Spaces(n - 1)
  }

  /** `s` right-justified in a column `width` characters wide. A string
      already at least `width` long is returned unchanged: the padding
      never truncates. */
  function PadLeft(s: string, width: int): (r: string)
    ensures |r| == Max(|s|, width)
    ensures r[|r| - |s|..] == s
    ensures AllSpaces(r[..|r| - |s|])
    ensures |s| >= width ==> r == s
  {
    Spaces(width - |s|) + s
  }

  /** Two all-space strings of the same length are equal. */
  lemma AllSpacesEqual(a: string, b: string)
    requires AllSpaces(a) && AllSpaces(b) && |a| == |b|
    ensures a == b
  {
    assert forall i :: 0 <= i < |a| ==> a[i] == b[i];
  }

  /** The three clauses of `PadLeft`'s contract pin its result down:
      a string is the padded form of `s` exactly when it has the padded
      length, ends with `s` and has only spaces before it. */
  lemma PadLeftCharacterization(s: string, width: int, r: string)
    ensures r == PadLeft(s, width) <==>
              |r| == Max(|s|, width) && r[|r| - |s|..] == s && AllSpaces(r[..|r| - |s|])
  {
    if |r| == Max(|s|, width) && r[|r| - |s|..] == s && AllSpaces(r[..|r| - |s|]) {
      var p := PadLeft(s, width);
      AllSpacesEqual(r[..|r| - |s|], p[..|p| - |s|]);
      assert r == r[..|r| - |s|] + r[|r| - |s|..];
      assert p == p[..|p| - |s|] + p[|p| - |s|..];
    }
  }

  /** The loop of `createPaddingString`: one space is appended per step
      while the counter is below `maxPaddingSize - |str|`, then `str` is
      appended. A negative difference runs the loop zero times. */
  method CreatePaddingString(str: string, maxPaddingSize: int) returns (r: string)
    ensures |r| == Max(|str|, maxPaddingSize)
    ensures r[|r| - |str|..] == str
    ensures AllSpaces(r[..|r| - |str|])
    ensures r == PadLeft(str, maxPaddingSize)
  {
    var padding := "";
    var addPaddingSize := maxPaddingSize - |str|;
    var i := 0;
    while i < addPaddingSize
      invariant i <= Max(addPaddingSize, 0)
      invariant |padding| == i
      invariant AllSpaces(padding)
    {
      padding := padding + " ";
      i := i + 1;
    }
    r := padding + str;
    assert r[..|r| - |str|] == padding;
    PadLeftCharacterization(str, maxPaddingSize, r);
  }

  /** `s` without its leading spaces. */
  function TrimLeft(s: string): (r: string)
    ensures |r| <= |s|
    ensures r == s[|s| - |r|..]
    ensures AllSpaces(s[..|s| - |r|])
    ensures r == [] || r[0] != ' '
    decreases |s|
  {
    if |s| > 0 && s[0] == ' ' then
      var r := TrimLeft(s[1..]);
      var k := |s| - |r|;
      assert s[1..][k - 1..] == s[k..];
      assert forall i :: 0 <= i < k ==> s[..k][i] == ' ' by {
        forall i | 0 <= i < k ensures s[..k][i] == ' ' {
          if i > 0 {
            assert s[..k][i] == s[1..][..k - 1][i - 1];
          }
        }
      }
      r
    else s
  }

  /** Leading spaces in front of `s` are all removed by trimming. */
  lemma {:induction false} TrimLeftSpaces(p: string, s: string)
    requires AllSpaces(p)
    ensures TrimLeft(p + s) == TrimLeft(s)
    decreases |p|
  {
    if p == [] {
      assert p + s == s;
    } else {
      var x := p + s;
      assert x[0] == ' ';
      assert x[1..] == p[1..] + s;
      TrimLeftSpaces(p[1..], s);
    }
  }

  /** Padding is undone by trimming leading spaces, provided the padded
      string did not itself start with a space: the original value can be
      read back out of a right-justified column. */
  lemma TrimLeftPadLeft(s: string, width: int)
    requires s == [] || s[0] != ' '
    ensures TrimLeft(PadLeft(s, width)) == s
  {
    TrimLeftSpaces(Spaces(width - |s|), s);
  }
}
