/**
 lib/string.c: C strings, as sequences of characters that contain a NUL.
 */
module Strings {

  const NUL: char := '\0'

  ghost predicate IsString(s: seq<char>) {
    NUL in s
  }

  // The position of the first NUL.
  ghost function Length(s: seq<char>): (n: nat)
    requires IsString(s)
    ensures n < |s| && s[n] == NUL && forall i :: 0 <= i < n ==> s[i] != NUL
  {
    if s[0] == NUL then 0 else 1 + Length(s[1..])
  }

  // What the string says.
  ghost function Text(s: seq<char>): (t: seq<char>)
    requires IsString(s)
    ensures NUL !in t
  {
    s[..Length(s)]
  }

  lemma LengthIs(s: seq<char>, n: nat)
    requires n < |s| && s[n] == NUL && forall i :: 0 <= i < n ==> s[i] != NUL
    ensures IsString(s) && Length(s) == n
  {
    assert s[n] in s;
  }

  lemma BeforeNul(s: seq<char>, n: nat)
    requires IsString(s) && forall i :: 0 <= i < n ==> i < |s| && s[i] != NUL
    ensures n <= Length(s)
  {
    var m := Length(s);
    assert s[m] == NUL;
  }

  // strlen
  method Strlen(s: seq<char>) returns (len: nat)
    requires IsString(s)
    ensures len == |Text(s)| && s[len] == NUL
  {
    len := 0;
    while s[len] != NUL
      invariant len < |s| && forall i :: 0 <= i < len ==> s[i] != NUL
      invariant len <= Length(s)
      decreases |s| - len
    {
      BeforeNul(s, len + 1);
      len := len + 1;
    }
    LengthIs(s, len);
  }

  // The place where two strings first differ, or where both end.
  ghost predicate DifferAt(a: seq<char>, b: seq<char>, k: nat) {
    && k < |a| && k < |b| && a[..k] == b[..k] && NUL !in a[..k]
    && (a[k] != b[k] || a[k] == NUL)
  }

  // strcmp: the difference of the characters where the strings part.
  method Strcmp(a: seq<char>, b: seq<char>) returns (r: int)
    requires IsString(a) && IsString(b)
    ensures r == 0 <==> Text(a) == Text(b)
    ensures exists k: nat :: DifferAt(a, b, k) && r == a[k] as int - b[k] as int
  {
    var k := 0;
    while a[k] != NUL && a[k] == b[k]
      invariant k <= Length(a) && k <= Length(b)
      invariant a[..k] == b[..k]
      decreases |a| - k
    {
      BeforeNul(a, k + 1);
      BeforeNul(b, k + 1);
      k := k + 1;
    }
    r := a[k] as int - b[k] as int;
    assert DifferAt(a, b, k);
    PartIsDifference(a, b, k);
  }

  lemma PartIsDifference(a: seq<char>, b: seq<char>, k: nat)
    requires IsString(a) && IsString(b) && DifferAt(a, b, k)
    ensures Text(a) == Text(b) <==> a[k] == b[k]
  {
    forall i | 0 <= i < k ensures a[i] != NUL && b[i] == a[i] {
      assert a[..k][i] == a[i] && b[..k][i] == b[i];
    }
    BeforeNul(a, k);
    BeforeNul(b, k);
    if a[k] == b[k] {
      LengthIs(a, k);
      LengthIs(b, k);
    }
  }
}
