/** UTF-8 byte strings, as section 3 of RFC 3629 defines them, and where they may be split. */
module Utf8 {

  type Byte = b: int | 0 <= b < 256

  predicate IsContinuation(b: Byte) { 0x80 <= b <= 0xBF }

  /** Length of the character the bytes begin with; 0 when they begin with none. */
  function CharLength(s: seq<Byte>): (n: nat)
    ensures n <= |s| && n <= 4
    ensures n > 0 ==> !IsContinuation(s[0]) && forall i :: 1 <= i < n ==> IsContinuation(s[i])
  {
    if s == [] then 0
    else if s[0] <= 0x7F then 1
    else if |s| < 2 || !IsContinuation(s[1]) then 0
    else if 0xC2 <= s[0] <= 0xDF then 2
    else if |s| < 3 || !IsContinuation(s[2]) then 0
    else if 0xE0 <= s[0] <= 0xEF then
      if (s[0] == 0xE0 ==> 0xA0 <= s[1]) && (s[0] == 0xED ==> s[1] <= 0x9F) then 3 else 0
    else if |s| < 4 || !IsContinuation(s[3]) then 0
    else if 0xF0 <= s[0] <= 0xF4 && (s[0] == 0xF0 ==> 0x90 <= s[1]) && (s[0] == 0xF4 ==> s[1] <= 0x8F) then 4
    else 0
  }

  predicate Valid(s: seq<Byte>)
    decreases |s|
  {
    s == [] || (CharLength(s) > 0 && Valid(s[CharLength(s)..]))
  }

  /** `str::is_char_boundary`. */
  predicate IsBoundary(s: seq<Byte>, i: nat)
    requires i <= |s|
  {
    i == 0 || i == |s| || !IsContinuation(s[i])
  }

  /** The first character does not depend on what follows it. */
  lemma FirstCharacter(s: seq<Byte>, t: seq<Byte>)
    requires CharLength(s) > 0 && CharLength(s) <= |t| && s[..CharLength(s)] == t[..CharLength(s)]
    ensures CharLength(t) == CharLength(s)
  {
    var n := CharLength(s);
    assert forall i :: 0 <= i < n ==> s[i] == s[..n][i] && t[i] == t[..n][i];
  }

  lemma {:induction false} ConcatIsValid(a: seq<Byte>, b: seq<Byte>)
    requires Valid(a) && Valid(b)
    ensures Valid(a + b)
    decreases |a|
  {
    if a == [] {
      assert a + b == b;
    } else {
      var n := CharLength(a);
      FirstCharacter(a, a + b);
      assert (a + b)[n..] == a[n..] + b;
      ConcatIsValid(a[n..], b);
    }
  }

  /** Splitting at a character boundary leaves two valid strings. */
  lemma {:induction false} BoundarySplits(s: seq<Byte>, i: nat)
    requires Valid(s) && i <= |s| && IsBoundary(s, i)
    ensures Valid(s[..i]) && Valid(s[i..])
    decreases |s|
  {
    if i == 0 {
      assert s[0..] == s && s[..0] == [];
    } else {
      var n := CharLength(s);
      assert i >= n;
      assert IsBoundary(s[n..], i - n);
      BoundarySplits(s[n..], i - n);
      assert s[n..][i - n..] == s[i..];
      FirstCharacter(s, s[..i]);
      assert s[..i][n..] == s[n..][..i - n];
    }
  }

  /** Splitting anywhere else breaks the second part. */
  lemma OnlyBoundariesSplit(s: seq<Byte>, i: nat)
    requires Valid(s) && i <= |s| && !IsBoundary(s, i)
    ensures !Valid(s[i..])
  {
    assert s[i..][0] == s[i];
  }

  /** A character is at most four octets long, so a boundary is never more than three back. */
  lemma {:induction false} BoundaryIsNear(s: seq<Byte>, i: nat) returns (k: nat)
    requires Valid(s) && i <= |s|
    ensures k <= i <= k + 3 && IsBoundary(s, k)
    decreases |s|
  {
    if i == 0 || i == |s| {
      k := i;
    } else {
      var n := CharLength(s);
      if i < n {
        k := 0;
      } else {
        var j := BoundaryIsNear(s[n..], i - n);
        k := n + j;
      }
    }
  }

  /** Length of the longest prefix of whole characters within the limit. */
  method PrefixLength(s: seq<Byte>, maximumBytes: nat) returns (end: nat)
    requires Valid(s)
    ensures end <= |s| && end <= maximumBytes && IsBoundary(s, end)
    ensures forall k: nat :: k <= |s| && k <= maximumBytes && IsBoundary(s, k) ==> k <= end
    ensures if |s| <= maximumBytes then end == |s| else maximumBytes <= end + 3
    ensures Valid(s[..end]) && Valid(s[end..])
  {
    if |s| <= maximumBytes {
      end := |s|;
    } else {
      end := maximumBytes;
      while end > 0 && !IsBoundary(s, end)
        invariant end <= maximumBytes
        invariant forall k :: end < k <= maximumBytes ==> !IsBoundary(s, k)
      {
        end := end - 1;
      }
      var near := BoundaryIsNear(s, maximumBytes);
    }
    BoundarySplits(s, end);
  }
}
