/**
 kernel/serial.c: the line editor of serial_poll.  What arrives on the port is
 a sequence of bytes; what goes out to the screen is left out.
 */
module LineEditor {

  const NUL: char := '\0'
  const ESC: char := 27 as char
  const DEL: char := 127 as char

  // ------------------------------------------------------------------ meaning

  datatype Key = Enter | Insert(c: char) | Backspace | Delete | Left | Right | Ignored

  // The text left and right of the cursor.
  datatype Line = Line(before: seq<char>, after: seq<char>) {
    function Text(): seq<char> { before + after }
    function Count(): nat { |before| + |after| }
  }

  function Apply(l: Line, k: Key): Line {
    match k
    case Insert(c) => Line(l.before + [c], l.after)
    case Backspace => if l.before == [] then l else Line(l.before[..|l.before|-1], l.after)
    case Delete => if l.after == [] then l else Line(l.before, l.after[1..])
    case Left => if l.before == [] then l else Line(l.before[..|l.before|-1], [l.before[|l.before|-1]] + l.after)
    case Right => if l.after == [] then l else Line(l.before + [l.after[0]], l.after[1..])
    case Enter => l
    case Ignored => l
  }

  // The key whose bytes come first, and how many bytes those are; 0 while the
  // bytes of an escape sequence are still to come.  The arrow keys up and down
  // do nothing while there is no earlier line.
  datatype Press = Press(key: Key, bytes: nat)

  function Decode(input: seq<char>): (p: Press)
    requires input != []
    ensures p.bytes <= |input|
  {
    var c := input[0];
    if c == 13 as char || c == 10 as char then Press(Enter, 1)
    else if c == DEL then Press(Backspace, 1)
    else if c != ESC then Press(Insert(c), 1)
    else if |input| < 2 then Press(Ignored, 0)
    else if input[1] != '[' then Press(Ignored, 2)
    else if |input| < 3 then Press(Ignored, 0)
    else if input[2] == '3' then
      if |input| < 4 then Press(Ignored, 0)
      else if input[3] == '~' then Press(Delete, 4)
      else Press(Ignored, 4)
    else if input[2] == 'C' then Press(Right, 3)
    else if input[2] == 'D' then Press(Left, 3)
    else Press(Ignored, 3)
  }

  // What the editor has made of the input: the line, the input not looked at,
  // and whether it has returned.
  datatype Session = Session(line: Line, rest: seq<char>, returned: bool)

  function Edit(l: Line, input: seq<char>, len: nat): Session
    decreases |input|
  {
    if l.Count() >= len - 1 then Session(l, input, true)
    else if input == [] then Session(l, input, false)
    else
      var p := Decode(input);
      if p.bytes == 0 then Session(l, input, false)
      else if p.key == Enter then Session(l, input[p.bytes..], true)
      else Edit(Apply(l, p.key), input[p.bytes..], len)
  }

  // --------------------------------------------------------------- the buffer

  // buffer holds the line, cursor and all.
  ghost predicate Holds(buffer: seq<char>, l: Line, index: int, count: int) {
    && index == |l.before| && count == l.Count() && count <= |buffer|
    && (forall i :: 0 <= i < index ==> buffer[i] == l.before[i])
    && (forall i :: index <= i < count ==> buffer[i] == l.after[i - index])
  }

  // Nothing but NUL from position n on, up to len.
  ghost predicate Clear(buffer: seq<char>, n: int, len: nat) {
    forall i :: 0 <= i && n <= i < len && i < |buffer| ==> buffer[i] == NUL
  }

  // Make room at `at` in the first `count - 1` places, by carrying one
  // character at a time.
  method InsertChar(buffer: array<char>, at: nat, count: nat, c: char)
    requires at < count <= buffer.Length
    modifies buffer
    ensures buffer[at] == c
    ensures forall i :: 0 <= i < buffer.Length && !(at <= i < count) ==> buffer[i] == old(buffer[i])
    ensures forall i :: at < i < count ==> buffer[i] == old(buffer[i-1])
  {
    var charIn, index := c, at;
    ghost var s := buffer[..];
    var tempChar := buffer[index];
    buffer[index] := charIn;
    charIn := tempChar;
    index := index + 1;
    while index < count
      invariant at < index <= count && charIn == s[index-1] && buffer[at] == c
      invariant forall i :: 0 <= i < buffer.Length && !(at <= i < index) ==> buffer[i] == s[i]
      invariant forall i :: at < i < index ==> buffer[i] == s[i-1]
    {
      tempChar := buffer[index];
      buffer[index] := charIn;
      charIn := tempChar;
      index := index + 1;
    }
  }

  // Close the gap at `at`: shift the rest one to the left, with the character
  // behind the text, and end with NUL.
  method RemoveChar(buffer: array<char>, at: nat, count: nat)
    requires at < count < buffer.Length
    modifies buffer
    ensures buffer[count] == NUL
    ensures forall i :: 0 <= i < buffer.Length && !(at <= i <= count) ==> buffer[i] == old(buffer[i])
    ensures forall i :: at <= i < count ==> buffer[i] == old(buffer[i+1])
  {
    ghost var s := buffer[..];
    for i := at to count
      invariant forall k :: 0 <= k < buffer.Length && !(at <= k < i) ==> buffer[k] == s[k]
      invariant forall k :: at <= k < i ==> buffer[k] == s[k+1]
    {
      buffer[i] := buffer[i+1];
    }
    buffer[count] := NUL;
  }

  // The buffer s with a character inserted, or removed, is b.
  ghost predicate Inserted(s: seq<char>, b: seq<char>, at: nat, count: nat, c: char) {
    && |b| == |s| && at < count <= |s| && b[at] == c
    && (forall i :: 0 <= i < |s| && !(at <= i < count) ==> b[i] == s[i])
    && (forall i :: at < i < count ==> b[i] == s[i-1])
  }

  ghost predicate Removed(s: seq<char>, b: seq<char>, at: nat, count: nat) {
    && |b| == |s| && at < count < |s| && b[count] == NUL
    && (forall i :: 0 <= i < |s| && !(at <= i <= count) ==> b[i] == s[i])
    && (forall i :: at <= i < count ==> b[i] == s[i+1])
  }

  lemma InsertedHolds(s: seq<char>, b: seq<char>, l: Line, index: nat, count: nat, c: char, len: nat)
    requires Holds(s, l, index, count) && Inserted(s, b, index, count + 1, c)
    ensures Holds(b, Apply(l, Insert(c)), index + 1, count + 1)
    ensures Clear(s, count, len) ==> Clear(b, count + 1, len)
  {
  }

  lemma DeletedHolds(s: seq<char>, b: seq<char>, l: Line, index: nat, count: nat, len: nat)
    requires Holds(s, l, index, count) && Removed(s, b, index, count) && count < len
    ensures Holds(b, Apply(l, Delete), index, count - 1)
    ensures Clear(s, count, len) ==> Clear(b, count - 1, len)
  {
  }

  lemma RemovedHolds(s: seq<char>, b: seq<char>, l: Line, index: nat, count: nat, len: nat)
    requires 0 < index && Holds(s, l, index, count) && Removed(s, b, index - 1, count) && count < len
    ensures Holds(b, Apply(l, Backspace), index - 1, count - 1)
    ensures Clear(s, count, len) ==> Clear(b, count - 1, len)
  {
  }

  lemma MovedHolds(s: seq<char>, l: Line, index: nat, count: nat)
    requires Holds(s, l, index, count)
    ensures Holds(s, Apply(l, Left), if index == 0 then 0 else index - 1, count)
    ensures Holds(s, Apply(l, Right), if index == count then count else index + 1, count)
    ensures index == 0 ==> Apply(l, Backspace) == l
    ensures index == count ==> Apply(l, Delete) == l
    ensures Apply(l, Ignored) == l && 0 <= index <= count
  {
  }

  // What one key does; tempIndex is where the cursor goes.
  method PressKey(buffer: array<char>, ghost len: nat, index: nat, count: nat, key: Key, ghost l: Line)
    returns (tempIndex: nat, bufferCount: nat)
    requires Holds(buffer[..], l, index, count) && count + 1 < len <= buffer.Length && !key.Enter?
    modifies buffer
    ensures Holds(buffer[..], Apply(l, key), tempIndex, bufferCount)
    ensures Clear(old(buffer[..]), count, len) ==> Clear(buffer[..], bufferCount, len)
    ensures forall i :: len - 1 <= i < buffer.Length ==> buffer[i] == old(buffer[i])
  {
    hide Holds, Clear, Apply;
    ghost var s := buffer[..];
    MovedHolds(s, l, index, count);
    tempIndex, bufferCount := index, count;
    match key {
      case Backspace =>
        if index > 0 {
          tempIndex := index - 1;
          RemoveChar(buffer, tempIndex, count);
          bufferCount := count - 1;
          RemovedHolds(s, buffer[..], l, index, count, len);
        }
      case Insert(c) =>
        bufferCount := count + 1;
        InsertChar(buffer, index, bufferCount, c);
        tempIndex := index + 1;
        InsertedHolds(s, buffer[..], l, index, count, c, len);
      case Delete =>
        if index < count {
          RemoveChar(buffer, index, count);
          bufferCount := count - 1;
          DeletedHolds(s, buffer[..], l, index, count, len);
        }
      case Right =>
        if index != count {
          tempIndex := index + 1;
        }
      case Left =>
        if index != 0 {
          tempIndex := index - 1;
        }
      case Ignored =>
    }
  }

  // serial_poll, for the first line that is read: the number of characters in
  // the buffer, how much of the input was read, and whether the call has
  // returned or waits for more.  tempIndex, which the code does not set at
  // first, is taken to be 0.
  method SerialPoll(buffer: array<char>, len: nat, input: seq<char>) returns (bufferCount: nat, used: nat, returned: bool)
    requires len <= buffer.Length
    modifies buffer
    ensures used <= |input|
    ensures var s := Edit(Line([], []), input, len);
      && bufferCount == s.line.Count() <= buffer.Length && buffer[..bufferCount] == s.line.Text()
      && input[used..] == s.rest && returned == s.returned
    ensures bufferCount == 0 || bufferCount < len
    ensures forall i :: len - 1 <= i < buffer.Length && 0 <= i ==> buffer[i] == old(buffer[i])
    ensures Clear(old(buffer[..]), 0, len) ==> Clear(buffer[..], bufferCount, len)
  {
    hide Edit, Apply, Decode, Holds, Clear;
    var index := 0;
    bufferCount, used, returned := 0, 0, false;
    ghost var l := Line([], []);
    EmptyLine(buffer[..]);
    assert input[0..] == input;
    while bufferCount < len - 1 && used < |input|
      invariant used <= |input| && Holds(buffer[..], l, index, bufferCount) && (bufferCount == 0 || bufferCount < len)
      invariant Edit(Line([], []), input, len) == Edit(l, input[used..], len)
      invariant forall i :: len - 1 <= i < buffer.Length && 0 <= i ==> buffer[i] == old(buffer[i])
      invariant Clear(old(buffer[..]), 0, len) ==> Clear(buffer[..], bufferCount, len)
      decreases |input| - used
    {
      var p := Decode(input[used..]);
      HoldsLine(buffer[..], l, index, bufferCount);
      EditStep(l, input, used, len);
      CountAfter(l, p.key);
      if p.bytes == 0 {
        return;
      }
      used := used + p.bytes;
      if p.key == Enter {
        returned := true;
        return;
      }
      index, bufferCount := PressKey(buffer, len, index, bufferCount, p.key, l);
      l := Apply(l, p.key);
      HoldsLine(buffer[..], l, index, bufferCount);
    }
    HoldsLine(buffer[..], l, index, bufferCount);
    EditEnds(l, input[used..], len);
    returned := bufferCount >= len - 1;
  }

  lemma EmptyLine(buffer: seq<char>)
    ensures Holds(buffer, Line([], []), 0, 0)
  {
  }

  lemma HoldsLine(buffer: seq<char>, l: Line, index: int, count: int)
    requires Holds(buffer, l, index, count)
    ensures count == l.Count() <= |buffer| && buffer[..count] == l.Text()
  {
  }

  lemma EditStep(l: Line, input: seq<char>, used: nat, len: nat)
    requires used < |input| && l.Count() < len - 1
    ensures var (s, p) := (Edit(l, input[used..], len), Decode(input[used..]));
      && used + p.bytes <= |input|
      && (p.bytes == 0 ==> s == Session(l, input[used..], false))
      && (p.bytes != 0 && p.key == Enter ==> s == Session(l, input[used + p.bytes..], true))
      && (p.bytes != 0 && p.key != Enter ==> s == Edit(Apply(l, p.key), input[used + p.bytes..], len))
  {
    hide Apply, Decode;
    assert input[used..][Decode(input[used..]).bytes..] == input[used + Decode(input[used..]).bytes..];
  }

  lemma EditEnds(l: Line, input: seq<char>, len: nat)
    requires l.Count() >= len - 1 || input == []
    ensures Edit(l, input, len) == Session(l, input, l.Count() >= len - 1)
  {
  }

  // ------------------------------------------------------------- what keys do

  // Left and right undo each other, unless there is nowhere to go; and moving
  // never changes the text.
  lemma LeftUndone(l: Line)
    ensures Apply(Apply(l, Left), Right) == l <==> l.before != [] || l.after == []
    ensures Apply(l, Left).Text() == l.Text()
  {
    if l.before != [] {
      var k := |l.before| - 1;
      assert l.before[..k] + [l.before[k]] == l.before;
      assert ([l.before[k]] + l.after)[1..] == l.after;
    } else if l.after != [] {
      assert Apply(l, Right).before != [];
    }
  }

  lemma RightUndone(l: Line)
    ensures Apply(Apply(l, Right), Left) == l <==> l.after != [] || l.before == []
    ensures Apply(l, Right).Text() == l.Text()
  {
    if l.after != [] {
      assert [l.after[0]] + l.after[1..] == l.after;
      assert (l.before + [l.after[0]])[..|l.before|] == l.before;
    } else if l.before != [] {
      assert Apply(l, Left).after != [];
    }
  }

  lemma CountAfter(l: Line, k: Key)
    ensures Apply(l, k).Count() <= l.Count() + 1
  {
  }

  // What a key does to the text as a whole.
  lemma TextAfter(l: Line, k: Key)
    ensures var (t, i) := (l.Text(), |l.before|);
      Apply(l, k).Text() == match k
        case Insert(c) => t[..i] + [c] + t[i..]
        case Backspace => if i == 0 then t else t[..i-1] + t[i..]
        case Delete => if i == |t| then t else t[..i] + t[i+1..]
        case _ => t
  {
    hide Apply;
    KeyParts(l);
    match k
    case Insert(c) => InsertText(l, c);
    case Backspace => BackspaceText(l);
    case Delete => DeleteText(l);
    case Left => LeftUndone(l);
    case Right => RightUndone(l);
    case Enter => EnterText(l);
    case Ignored => EnterText(l);
  }

  lemma KeyParts(l: Line)
    ensures l.Text()[..|l.before|] == l.before && l.Text()[|l.before|..] == l.after && |l.before| <= |l.Text()|
  {
  }

  lemma InsertText(l: Line, c: char)
    ensures Apply(l, Insert(c)).Text() == l.before + [c] + l.after
  {
  }

  lemma BackspaceText(l: Line)
    ensures var i := |l.before|;
      Apply(l, Backspace).Text() == if i == 0 then l.Text() else l.Text()[..i-1] + l.after
  {
    if l.before != [] {
      assert l.Text()[..|l.before|-1] == l.before[..|l.before|-1];
    }
  }

  lemma DeleteText(l: Line)
    ensures var i := |l.before|;
      Apply(l, Delete).Text() == if l.after == [] then l.Text() else l.before + l.Text()[i+1..]
  {
    if l.after != [] {
      assert l.Text()[|l.before|+1..] == l.after[1..];
    }
  }

  lemma EnterText(l: Line)
    ensures Apply(l, Enter) == l && Apply(l, Ignored) == l
  {
  }

  // No session overfills the buffer: at most len - 1 characters.
  lemma {:induction false} SessionFits(l: Line, input: seq<char>, len: nat)
    requires l.Count() == 0 || l.Count() < len
    ensures var n := Edit(l, input, len).line.Count(); n == 0 || n < len
    decreases |input|
  {
    if l.Count() < len - 1 && input != [] {
      var p := Decode(input);
      if p.bytes != 0 && p.key != Enter {
        SessionFits(Apply(l, p.key), input[p.bytes..], len);
      }
    }
  }
}
