/**
 kernel/serial.c, byte by byte: what each byte sequence does to a session of
 the line editor, and sessions that move around in the line.
 */
module Keystrokes {
  import opened LineEditor

  const LEFT: seq<char> := [27 as char, '[', 'D']
  const RIGHT: seq<char> := [27 as char, '[', 'C']
  const DELETE: seq<char> := [27 as char, '[', '3', '~']

  lemma DropBytes(bytes: seq<char>, more: seq<char>)
    ensures (bytes + more)[|bytes|..] == more
  {
  }

  // ---------------------------------------------------------- one key at a time

  // ESC [ D carries the last character before the cursor behind it.
  lemma LeftKey(l: Line, more: seq<char>, len: nat)
    requires l.Count() < len - 1
    ensures Edit(l, [27 as char, '[', 'D'] + more, len) ==
      if l.before == [] then Edit(l, more, len)
      else Edit(Line(l.before[..|l.before|-1], [l.before[|l.before|-1]] + l.after), more, len)
  {
    DropBytes(LEFT, more);
  }

  // ESC [ C carries the first character behind the cursor before it.
  lemma RightKey(l: Line, more: seq<char>, len: nat)
    requires l.Count() < len - 1
    ensures Edit(l, [27 as char, '[', 'C'] + more, len) ==
      if l.after == [] then Edit(l, more, len)
      else Edit(Line(l.before + [l.after[0]], l.after[1..]), more, len)
  {
    DropBytes(RIGHT, more);
  }

  // ESC [ 3 ~ removes the first character behind the cursor.
  lemma DeleteKey(l: Line, more: seq<char>, len: nat)
    requires l.Count() < len - 1
    ensures Edit(l, [27 as char, '[', '3', '~'] + more, len) ==
      if l.after == [] then Edit(l, more, len) else Edit(Line(l.before, l.after[1..]), more, len)
  {
    DropBytes(DELETE, more);
  }

  // 127 removes the last character before the cursor.
  lemma BackspaceKey(l: Line, more: seq<char>, len: nat)
    requires l.Count() < len - 1
    ensures Edit(l, [127 as char] + more, len) ==
      if l.before == [] then Edit(l, more, len) else Edit(Line(l.before[..|l.before|-1], l.after), more, len)
  {
    DropBytes([127 as char], more);
  }

  // Carriage return and line feed both end the line, as it is.
  lemma EndKeys(l: Line, more: seq<char>, len: nat)
    requires l.Count() < len - 1
    ensures Edit(l, [13 as char] + more, len) == Session(l, more, true)
    ensures Edit(l, [10 as char] + more, len) == Session(l, more, true)
  {
    DropBytes([13 as char], more);
    DropBytes([10 as char], more);
  }

  // Every byte but 10, 13, 27 and 127 goes in before the cursor.
  lemma PlainKey(l: Line, c: char, more: seq<char>, len: nat)
    requires l.Count() < len - 1 && Plain(c)
    ensures Edit(l, [c] + more, len) == Edit(Line(l.before + [c], l.after), more, len)
  {
    DropBytes([c], more);
  }

  // All other escape sequences are read and do nothing.
  lemma OtherSequences(l: Line, c: char, more: seq<char>, len: nat)
    requires l.Count() < len - 1
    ensures c != '[' ==> Edit(l, [27 as char, c] + more, len) == Edit(l, more, len)
    ensures c != '3' && c != 'C' && c != 'D' ==> Edit(l, [27 as char, '[', c] + more, len) == Edit(l, more, len)
    ensures c != '~' ==> Edit(l, [27 as char, '[', '3', c] + more, len) == Edit(l, more, len)
  {
    IgnoredBytes(l, [27 as char, c], more, len);
    IgnoredBytes(l, [27 as char, '[', c], more, len);
    IgnoredBytes(l, [27 as char, '[', '3', c], more, len);
    hide Edit;
  }

  lemma IgnoredBytes(l: Line, bytes: seq<char>, more: seq<char>, len: nat)
    requires l.Count() < len - 1 && |bytes| > 0
    ensures Decode(bytes + more) == Press(Ignored, |bytes|) ==> Edit(l, bytes + more, len) == Edit(l, more, len)
  {
    DropBytes(bytes, more);
    hide Decode;
  }

  // In the middle of a sequence the editor waits for the rest.
  lemma UnfinishedSequences(l: Line, len: nat)
    requires l.Count() < len - 1
    ensures Edit(l, [27 as char], len) == Session(l, [27 as char], false)
    ensures Edit(l, [27 as char, '['], len) == Session(l, [27 as char, '['], false)
    ensures Edit(l, [27 as char, '[', '3'], len) == Session(l, [27 as char, '[', '3'], false)
  {
  }

  // ------------------------------------------------------------ many keys

  function Times(bytes: seq<char>, n: nat): seq<char> {
    if n == 0 then [] else bytes + Times(bytes, n - 1)
  }

  predicate Plain(c: char) {
    c as int != 10 && c as int != 13 && c as int != 27 && c as int != 127
  }

  // A plain text typed anywhere goes in before the cursor.
  lemma {:induction false} Typed(l: Line, t: seq<char>, more: seq<char>, len: nat)
    requires l.Count() + |t| <= len - 1 && forall i :: 0 <= i < |t| ==> Plain(t[i])
    ensures Edit(l, t + more, len) == Edit(Line(l.before + t, l.after), more, len)
    decreases |t|
  {
    hide Edit;
    if t == [] {
      assert t + more == more && l.before + t == l.before;
    } else {
      assert t + more == [t[0]] + (t[1..] + more);
      PlainKey(l, t[0], t[1..] + more, len);
      Typed(Line(l.before + [t[0]], l.after), t[1..], more, len);
      assert l.before + [t[0]] + t[1..] == l.before + t;
    }
  }

  // n times left carries n characters behind the cursor.
  lemma {:induction false} MovedLeft(l: Line, n: nat, more: seq<char>, len: nat)
    requires l.Count() < len - 1 && n <= |l.before|
    ensures var k := |l.before| - n;
      Edit(l, Times(LEFT, n) + more, len) == Edit(Line(l.before[..k], l.before[k..] + l.after), more, len)
    decreases n
  {
    hide Edit;
    if n == 0 {
      assert Times(LEFT, 0) + more == more && l.before[..|l.before|] == l.before && l.before[|l.before|..] + l.after == l.after;
    } else {
      var m := |l.before| - 1;
      var l' := Line(l.before[..m], [l.before[m]] + l.after);
      assert Times(LEFT, n) + more == LEFT + (Times(LEFT, n - 1) + more);
      LeftKey(l, Times(LEFT, n - 1) + more, len);
      MovedLeft(l', n - 1, more, len);
      var k := |l.before| - n;
      assert l'.before[..k] == l.before[..k] && l'.before[k..] + l'.after == l.before[k..] + l.after;
    }
  }

  lemma {:induction false} MovedRight(l: Line, n: nat, more: seq<char>, len: nat)
    requires l.Count() < len - 1 && n <= |l.after|
    ensures Edit(l, Times(RIGHT, n) + more, len) == Edit(Line(l.before + l.after[..n], l.after[n..]), more, len)
    decreases n
  {
    hide Edit;
    if n == 0 {
      assert Times(RIGHT, 0) + more == more && l.before + l.after[..0] == l.before && l.after[0..] == l.after;
    } else {
      var l' := Line(l.before + [l.after[0]], l.after[1..]);
      assert Times(RIGHT, n) + more == RIGHT + (Times(RIGHT, n - 1) + more);
      RightKey(l, Times(RIGHT, n - 1) + more, len);
      MovedRight(l', n - 1, more, len);
      assert l'.before + l'.after[..n-1] == l.before + l.after[..n] && l'.after[n-1..] == l.after[n..];
    }
  }

  lemma {:induction false} Deleted(l: Line, n: nat, more: seq<char>, len: nat)
    requires l.Count() < len - 1 && n <= |l.after|
    ensures Edit(l, Times(DELETE, n) + more, len) == Edit(Line(l.before, l.after[n..]), more, len)
    decreases n
  {
    hide Edit;
    if n == 0 {
      assert Times(DELETE, 0) + more == more && l.after[0..] == l.after;
    } else {
      assert Times(DELETE, n) + more == DELETE + (Times(DELETE, n - 1) + more);
      DeleteKey(l, Times(DELETE, n - 1) + more, len);
      Deleted(Line(l.before, l.after[1..]), n - 1, more, len);
      assert l.after[1..][n-1..] == l.after[n..];
    }
  }

  lemma Cat(a: seq<char>, b: seq<char>, c: seq<char>, d: seq<char>, e: seq<char>)
    ensures a + b + c + d + e == a + (b + (c + (d + e)))
  {
  }

  // Typing a text, going n places back, typing another text and Enter makes the
  // line in which the second text stands n places before the end of the first.
  lemma TypedInside(t: seq<char>, n: nat, u: seq<char>, more: seq<char>, len: nat)
    requires n <= |t| && |t| + |u| < len - 1
    requires (forall i :: 0 <= i < |t| ==> Plain(t[i])) && forall i :: 0 <= i < |u| ==> Plain(u[i])
    ensures var (k, s) := (|t| - n, Edit(Line([], []), t + Times(LEFT, n) + u + [13 as char] + more, len));
      s == Session(Line(t[..k] + u, t[k..]), more, true) && s.line.Text() == t[..k] + u + t[k..]
  {
    hide Edit;
    var k, end := |t| - n, [13 as char] + more;
    Cat(t, Times(LEFT, n), u, [13 as char], more);
    Typed(Line([], []), t, Times(LEFT, n) + (u + end), len);
    assert [] + t == t && t[k..] + [] == t[k..];
    MovedLeft(Line(t, []), n, u + end, len);
    Typed(Line(t[..k], t[k..]), u, end, len);
    EndKeys(Line(t[..k] + u, t[k..]), more, len);
  }

  // Going n places back, m places on, and deleting what is left behind the
  // cursor keeps all but the last n - m characters.
  lemma CutOff(t: seq<char>, n: nat, m: nat, more: seq<char>, len: nat)
    requires m <= n <= |t| && |t| < len - 1 && forall i :: 0 <= i < |t| ==> Plain(t[i])
    ensures Edit(Line([], []), t + Times(LEFT, n) + Times(RIGHT, m) + Times(DELETE, n - m) + ([10 as char] + more), len) ==
      Session(Line(t[..|t| - n + m], []), more, true)
  {
    hide Edit, Times, Plain;
    var k, end := |t| - n, [10 as char] + more;
    var lefts, rights, deletes := Times(LEFT, n), Times(RIGHT, m), Times(DELETE, n - m);
    Cat(t, lefts, rights, deletes, end);
    Pieces(t, k, m);
    Typed(Line([], []), t, lefts + (rights + (deletes + end)), len);
    MovedLeft(Line(t, []), n, rights + (deletes + end), len);
    MovedRight(Line(t[..k], t[k..]), m, deletes + end, len);
    Deleted(Line(t[..k+m], t[k+m..]), n - m, end, len);
    EndKeys(Line(t[..k+m], []), more, len);
  }

  lemma Pieces(t: seq<char>, k: nat, m: nat)
    requires k + m <= |t|
    ensures [] + t == t && t[k..] + [] == t[k..]
    ensures t[..k] + t[k..][..m] == t[..k+m] && t[k..][m..] == t[k+m..]
    ensures t[k+m..][|t|-k-m..] == []
  {
  }

  // n times backspace removes the n characters before the cursor.
  lemma {:induction false} Erased(l: Line, n: nat, more: seq<char>, len: nat)
    requires l.Count() < len - 1 && n <= |l.before|
    ensures Edit(l, Times([127 as char], n) + more, len) == Edit(Line(l.before[..|l.before|-n], l.after), more, len)
    decreases n
  {
    hide Edit;
    if n == 0 {
      assert Times([127 as char], 0) + more == more && l.before[..|l.before|] == l.before;
    } else {
      var m := |l.before| - 1;
      assert Times([127 as char], n) + more == [127 as char] + (Times([127 as char], n - 1) + more);
      BackspaceKey(l, Times([127 as char], n - 1) + more, len);
      Erased(Line(l.before[..m], l.after), n - 1, more, len);
      assert l.before[..m][..m-(n-1)] == l.before[..|l.before|-n];
    }
  }

  // Wherever the cursor is, a text typed there and erased again, with backspace
  // or by going back and deleting, leaves no trace, as long as the buffer was
  // never full.
  lemma TypedAndErased(l: Line, t: seq<char>, more: seq<char>, len: nat)
    requires l.Count() + |t| < len - 1 && forall i :: 0 <= i < |t| ==> Plain(t[i])
    ensures Edit(l, t + (Times([127 as char], |t|) + more), len) == Edit(l, more, len)
    ensures Edit(l, t + (Times(LEFT, |t|) + (Times(DELETE, |t|) + more)), len) == Edit(l, more, len)
  {
    hide Edit, Times, Plain;
    Typed(l, t, Times(LEFT, |t|) + (Times(DELETE, |t|) + more), len);
    MovedLeft(Line(l.before + t, l.after), |t|, Times(DELETE, |t|) + more, len);
    assert (l.before + t)[|l.before|..] + l.after == t + l.after;
    Deleted(Line(l.before, t + l.after), |t|, more, len);
    assert (t + l.after)[|t|..] == l.after;
    Typed(l, t, Times([127 as char], |t|) + more, len);
    Erased(Line(l.before + t, l.after), |t|, more, len);
    assert (l.before + t)[..|l.before|] == l.before;
  }

  // A text that fits, followed by Enter, becomes the line.
  lemma TypedLine(t: seq<char>, more: seq<char>, len: nat)
    requires |t| < len - 1 && forall i :: 0 <= i < |t| ==> Plain(t[i])
    ensures Edit(Line([], []), t + ([13 as char] + more), len) == Session(Line(t, []), more, true)
  {
    Typed(Line([], []), t, [13 as char] + more, len);
    assert [] + t == t;
    EndKeys(Line(t, []), more, len);
    hide Edit;
  }

  // Of a text that does not fit, len - 1 characters do; the rest stays unread.
  lemma TypedTooMuch(t: seq<char>, more: seq<char>, len: nat)
    requires |t| == len - 1 && forall i :: 0 <= i < |t| ==> Plain(t[i])
    ensures Edit(Line([], []), t + more, len) == Session(Line(t, []), more, true)
  {
    Typed(Line([], []), t, more, len);
    assert [] + t == t;
    EditEnds(Line(t, []), more, len);
    hide Edit;
  }
}
