/**
 lib/stdlib.c: itoa, reverse and atoi, on 32-bit ints.
 */
module Numbers {
  import opened Strings

  const INT_MIN: int := -0x8000_0000
  const INT_MAX: int := 0x7FFF_FFFF

  predicate IsInt(n: int) {
    INT_MIN <= n <= INT_MAX
  }

  // Two's complement wrap-around.
  function Wrap(x: int): (r: int)
    ensures IsInt(r) && (IsInt(x) ==> r == x) && (x == -INT_MIN ==> r == INT_MIN)
  {
    (x - INT_MIN) % 0x1_0000_0000 + INT_MIN
  }

  // The / and % of C truncate toward zero.
  function Quotient(n: int): int {
    if n >= 0 then n / 10 else -((-n) / 10)
  }

  function Remainder(n: int): (r: int)
    ensures n == 10 * Quotient(n) + r && -9 <= r <= 9 && (n >= 0 ==> r >= 0) && (n <= 0 ==> r <= 0)
  {
    if n >= 0 then n % 10 else -((-n) % 10)
  }

  // ------------------------------------------------------------ decimal form

  function Digit(d: nat): (c: char)
    requires d <= 9
    ensures IsDigit(c)
  {
    ('0' as int + d) as char
  }

  predicate IsDigit(c: char) {
    '0' <= c <= '9'
  }

  // The canonical digits, most significant first.
  function Digits(n: nat): (s: seq<char>)
    ensures s != [] && (forall i :: 0 <= i < |s| ==> IsDigit(s[i]))
    ensures n != 0 ==> s[0] != '0'
    ensures n <= 9 ==> s == [Digit(n)]
  {
    if n <= 9 then [Digit(n)] else Digits(n / 10) + [Digit(n % 10)]
  }

  function Decimal(n: int): seq<char> {
    if n < 0 then ['-'] + Digits(-n) else Digits(n)
  }

  // --------------------------------------------------------------------- atoi

  // isspace (lib/ctype.c)
  predicate IsSpace(c: char) {
    c == ' ' || c == '\n' || c == '\r' || c == 12 as char || c == '\t' || c == 11 as char
  }

  function SkipSpaces(t: seq<char>): (u: seq<char>)
    ensures u == [] || !IsSpace(u[0])
  {
    if t != [] && IsSpace(t[0]) then SkipSpaces(t[1..]) else t
  }

  // Reading digits on top of what has been read.
  function Accumulate(t: seq<char>, acc: int): int {
    if t != [] && IsDigit(t[0]) then Accumulate(t[1..], Wrap(acc * 10 + (t[0] as int - '0' as int))) else acc
  }

  // What atoi makes of a text.
  function Parse(t: seq<char>): int {
    var u := SkipSpaces(t);
    if u != [] && u[0] == '-' then Wrap(-Accumulate(u[1..], 0))
    else if u != [] && u[0] == '+' then Accumulate(u[1..], 0)
    else Accumulate(u, 0)
  }

  method Atoi(s: seq<char>) returns (res: int)
    requires IsString(s)
    ensures res == Parse(Text(s))
  {
    var n := Strlen(s);
    ghost var t := Text(s);
    var i, sign := 0, ' ';
    while IsSpace(s[i])
      invariant i <= |t| && SkipSpaces(t) == SkipSpaces(t[i..])
      decreases |t| - i
    {
      i := i + 1;
    }
    ghost var u := t[i..];
    if s[i] == '-' || s[i] == '+' {
      sign := s[i];
      i := i + 1;
    }
    res := 0;
    ghost var v := t[i..];
    while '0' <= s[i] <= '9'
      invariant i <= |t| && Accumulate(v, 0) == Accumulate(t[i..], res)
      decreases |t| - i
    {
      res := Wrap(res * 10 + (s[i] as int - '0' as int));
      i := i + 1;
    }
    if sign == '-' {
      res := Wrap(res * -1);
    }
  }

  // -------------------------------------------------------------------- itoa

  function Reversed<T>(s: seq<T>): (r: seq<T>)
    ensures |r| == |s| && forall i :: 0 <= i < |s| ==> r[i] == s[|s| - 1 - i]
  {
    if s == [] then [] else Reversed(s[1..]) + [s[0]]
  }

  // reverse, in place
  method Reverse(s: array<char>)
    requires IsString(s[..])
    modifies s
    ensures IsString(s[..]) && Text(s[..]) == Reversed(old(Text(s[..])))
    ensures forall k :: |Text(s[..])| <= k < s.Length ==> s[k] == old(s[k])
  {
    ghost var was := s[..];
    var len := Strlen(s[..]);
    hide Reversed, Text;
    var i, j := 0, len as int - 1;
    while i < j
      invariant 0 <= i <= len && j == len - 1 - i && i <= j + 2
      invariant forall k :: 0 <= k < i ==> s[k] == was[len - 1 - k] && s[len - 1 - k] == was[k]
      invariant forall k :: i <= k <= j ==> s[k] == was[k]
      invariant forall k :: len <= k < s.Length ==> s[k] == was[k]
    {
      var c := s[i];
      s[i] := s[j];
      s[j] := c;
      i := i + 1;
      j := j - 1;
    }
    ReversedString(was, s[..], len);
  }

  lemma ReversedString(was: seq<char>, now: seq<char>, n: nat)
    requires |was| == |now| && IsString(was) && n == |Text(was)|
    requires forall k :: 0 <= k < n ==> now[k] == was[n - 1 - k]
    requires now[n] == was[n]
    ensures IsString(now) && Text(now) == Reversed(Text(was)) && |Text(now)| == n
  {
    LengthIs(now, n);
    assert now[..n] == Reversed(was[..n]);
  }

  // What itoa writes.  Negating the least int leaves it as it is, and its
  // remainder is negative.
  function ItoaText(n: int): seq<char>
    requires IsInt(n)
  {
    if n == INT_MIN then ['-', '('] else Decimal(n)
  }

  method Itoa(n: int, s: array<char>)
    requires IsInt(n) && s.Length > |ItoaText(n)|
    modifies s
    ensures IsString(s[..]) && Text(s[..]) == ItoaText(n)
    ensures forall k :: |ItoaText(n)| < k < s.Length ==> s[k] == old(s[k])
  {
    var sign, m := n, n;
    if n < 0 {
      m := Wrap(-n);
    }
    hide Digits, LowDigits, Reversed, Wrap, Decimal;
    ghost var t := LowFirst(m) + if n < 0 then ['-'] else [];
    LowText(n, m, t);
    hide LowFirst, ItoaText;
    var i := WriteDigits(m, s);
    if sign < 0 {
      s[i] := '-';
      i := i + 1;
    }
    s[i] := NUL;
    assert s[..][..i] == t;
    TerminatedAt(s[..], i);
    Reverse(s);
  }

  // The digits, least significant first; then the sign.
  function LowDigits(n: nat): (s: seq<char>) {
    if n <= 9 then [Digit(n)] else [Digit(n % 10)] + LowDigits(n / 10)
  }

  function LowFirst(m: int): seq<char> {
    if m >= 0 then LowDigits(m) else ['(']
  }

  lemma ReversedAppend<T>(s: seq<T>, x: T)
    ensures Reversed(s + [x]) == [x] + Reversed(s)
  {
  }

  lemma {:induction false} ReversedLowDigits(n: nat)
    ensures Reversed(LowDigits(n)) == Digits(n) && |LowDigits(n)| == |Digits(n)|
    ensures forall i :: 0 <= i < |LowDigits(n)| ==> LowDigits(n)[i] != NUL
  {
    if n > 9 {
      ReversedLowDigits(n / 10);
    }
  }

  lemma LowText(n: int, m: int, t: seq<char>)
    requires IsInt(n) && m == Wrap(if n < 0 then -n else n)
    requires t == LowFirst(m) + if n < 0 then ['-'] else []
    ensures Reversed(t) == ItoaText(n) && forall i :: 0 <= i < |t| ==> t[i] != NUL
  {
    hide Wrap, Digits, LowDigits;
    if m >= 0 {
      ReversedLowDigits(m);
    }
    if n < 0 {
      ReversedAppend(LowFirst(m), '-');
    } else {
      assert t == LowFirst(m);
    }
  }

  lemma TerminatedAt(s: seq<char>, n: nat)
    requires n < |s| && s[n] == NUL && forall i :: 0 <= i < n ==> s[..n][i] != NUL
    ensures IsString(s) && Text(s) == s[..n]
  {
    assert forall i :: 0 <= i < n ==> s[i] == s[..n][i];
    LengthIs(s, n);
  }

  // The digits still to be written.
  function Rest(n: int): seq<char> {
    if n > 0 then LowDigits(n) else []
  }

  lemma RestStep(n: int)
    requires n > 0
    ensures Rest(n) == [Digit(n % 10)] + Rest(n / 10)
  {
  }

  lemma FirstDigit(m: int)
    requires m >= 0 || m == INT_MIN
    ensures LowFirst(m) == [(Remainder(m) + '0' as int) as char] + Rest(Quotient(m))
  {
  }

  // The do-while loop.
  method WriteDigits(m: int, s: array<char>) returns (i: nat)
    requires m >= 0 || m == INT_MIN
    requires s.Length >= |LowFirst(m)|
    modifies s
    ensures i == |LowFirst(m)| && s[..i] == LowFirst(m)
    ensures forall k :: i <= k < s.Length ==> s[k] == old(s[k])
  {
    hide LowFirst, Rest;
    var n := m;
    FirstDigit(m);
    s[0] := (Remainder(n) + '0' as int) as char;
    i := 1;
    n := Quotient(n);
    assert s[..1] == [s[0]];
    while n > 0
      invariant i + |Rest(n)| <= s.Length && s[..i] + Rest(n) == LowFirst(m)
      invariant forall k :: i <= k < s.Length ==> s[k] == old(s[k])
      decreases n
    {
      ghost var done := s[..i];
      RestStep(n);
      s[i] := (Remainder(n) + '0' as int) as char;
      assert s[..i+1] == done + [Digit(n % 10)];
      i := i + 1;
      n := Quotient(n);
    }
    assert Rest(n) == [] by { NoRest(n); }
  }

  lemma NoRest(n: int)
    requires n <= 0
    ensures Rest(n) == []
  {
  }

  // ------------------------------------------------------------- round trip

  lemma {:induction false} AccumulateDigits(n: nat, tail: seq<char>)
    requires n <= -INT_MIN
    ensures Accumulate(Digits(n) + tail, 0) == Accumulate(tail, Wrap(n))
  {
    if n <= 9 {
      assert ([Digit(n)] + tail)[1..] == tail;
    } else {
      var last := [Digit(n % 10)] + tail;
      assert Digits(n) + tail == Digits(n / 10) + last;
      AccumulateDigits(n / 10, last);
      assert last[1..] == tail;
    }
  }

  lemma {:induction false} SkipAll(ws: seq<char>, t: seq<char>)
    requires (forall i :: 0 <= i < |ws| ==> IsSpace(ws[i])) && t != [] && !IsSpace(t[0])
    ensures SkipSpaces(ws + t) == t
  {
    if ws == [] {
      assert ws + t == t;
    } else {
      assert (ws + t)[1..] == ws[1..] + t;
      SkipAll(ws[1..], t);
    }
  }

  lemma ParseSign(n: int, tail: seq<char>)
    requires IsInt(n) && (tail != [] ==> !IsDigit(tail[0]))
    ensures var t := Decimal(n) + tail; !IsSpace(t[0]) && Parse(t) == n
  {
    var t := Decimal(n) + tail;
    hide Digits, Wrap;
    assert Accumulate(tail, n) == n && Accumulate(tail, Wrap(-n)) == Wrap(-n);
    hide Accumulate;
    if n < 0 {
      assert t[1..] == Digits(-n) + tail;
      AccumulateDigits(-n, tail);
    } else {
      assert t[0] == Digits(n)[0];
      AccumulateDigits(n, tail);
    }
  }

  // atoi reads every decimal numeral of an int, whatever white space precedes
  // it and whatever follows that is not a digit.
  lemma ParseDecimal(ws: seq<char>, n: int, tail: seq<char>)
    requires IsInt(n) && (forall i :: 0 <= i < |ws| ==> IsSpace(ws[i])) && (tail != [] ==> !IsDigit(tail[0]))
    ensures Parse(ws + (Decimal(n) + tail)) == n
  {
    var t := Decimal(n) + tail;
    ParseSign(n, tail);
    SkipAll(ws, t);
    SkipAll([], t);
    assert [] + t == t;
    hide Accumulate, Decimal, SkipSpaces;
  }

  // atoi undoes itoa, except for the least int.
  lemma RoundTrip(n: int)
    requires IsInt(n)
    ensures Parse(ItoaText(n)) == n <==> n != INT_MIN
    ensures n == -2147483648 ==> ItoaText(n) == "-(" && Parse(ItoaText(n)) == 0
  {
    if n != INT_MIN {
      ParseDecimal([], n, []);
      assert [] + (Decimal(n) + []) == ItoaText(n);
    } else {
      assert ItoaText(n)[1..] == ['('];
    }
  }

  // Different numbers are written differently: what itoa writes is the only
  // numeral of its form.
  lemma DecimalIsUnique(m: int, n: int)
    requires IsInt(m) && IsInt(n) && Decimal(m) == Decimal(n)
    ensures m == n
  {
    ParseDecimal([], m, []);
    ParseDecimal([], n, []);
  }

  // -------------------------------------------------- what atoi reads, exactly

  // The number that a row of digits stands for.
  function Value(s: seq<char>): int {
    if s == [] then 0 else 10 * Value(s[..|s|-1]) + (s[|s|-1] as int - 48)
  }

  predicate AllDigits(s: seq<char>) {
    forall i :: 0 <= i < |s| ==> 48 <= s[i] as int <= 57
  }

  // Space, tab, line feed, vertical tab, form feed and carriage return.
  predicate AllSpaces(s: seq<char>) {
    forall i :: 0 <= i < |s| ==> s[i] as int == 32 || 9 <= s[i] as int <= 13
  }

  lemma WrapTurns(x: int, q: int)
    ensures Wrap(x + 0x1_0000_0000 * q) == Wrap(x)
  {
  }

  // Wrapping around early makes no difference.
  lemma WrapEarly(x: int, d: int)
    ensures Wrap(Wrap(x) * 10 + d) == Wrap(x * 10 + d) && Wrap(-Wrap(x)) == Wrap(-x)
  {
    var q := (x - INT_MIN) / 0x1_0000_0000;
    assert Wrap(x) == x - 0x1_0000_0000 * q;
    WrapTurns(x * 10 + d, -10 * q);
    WrapTurns(-x, q);
    hide Wrap;
  }

  lemma {:induction false} AccumulateValue(s: seq<char>, tail: seq<char>)
    requires AllDigits(s)
    ensures Accumulate(s + tail, 0) == Accumulate(tail, Wrap(Value(s)))
    decreases |s|
  {
    hide Wrap;
    if s == [] {
      assert s + tail == tail && Wrap(0) == 0;
    } else {
      var n := |s| - 1;
      var rest := [s[n]] + tail;
      assert s + tail == s[..n] + rest;
      AccumulateValue(s[..n], rest);
      assert rest[1..] == tail;
      WrapEarly(Value(s[..n]), s[n] as int - 48);
    }
  }

  // A text is white space, perhaps a sign, digits, and a rest that they do not
  // reach into.
  ghost predicate Shape(t: seq<char>, ws: seq<char>, sign: seq<char>, s: seq<char>, tail: seq<char>) {
    && t == ws + (sign + (s + tail))
    && AllSpaces(ws) && (sign == [] || sign == ['+'] || sign == ['-']) && AllDigits(s)
    && (tail != [] ==> !AllDigits(tail[..1]))
    && (tail != [] && s == [] && sign == [] ==> !AllSpaces(tail[..1]) && tail[0] != '+' && tail[0] != '-')
  }

  // atoi of such a text is the number, modulo 2 to the 32nd, with its sign; no
  // digits count as 0.
  lemma ParseIsExact(t: seq<char>, ws: seq<char>, sign: seq<char>, s: seq<char>, tail: seq<char>)
    requires Shape(t, ws, sign, s, tail)
    ensures Parse(t) == Wrap(if sign == ['-'] then -Value(s) else Value(s))
    ensures IsInt(if sign == ['-'] then -Value(s) else Value(s)) ==> Parse(t) == if sign == ['-'] then -Value(s) else Value(s)
  {
    var u := sign + (s + tail);
    SpacesSkipped(ws, u, sign, s, tail);
    AccumulateValue(s, tail);
    assert Accumulate(tail, Wrap(Value(s))) == Wrap(Value(s));
    WrapEarly(Value(s), 0);
    hide Accumulate, SkipSpaces, Wrap, Value;
    if sign == [] {
      assert u == s + tail;
    } else {
      assert u[0] == sign[0] && u[1..] == s + tail;
    }
  }

  lemma SpacesSkipped(ws: seq<char>, u: seq<char>, sign: seq<char>, s: seq<char>, tail: seq<char>)
    requires Shape(ws + u, ws, sign, s, tail) && u == sign + (s + tail)
    ensures SkipSpaces(ws + u) == u
  {
    if u == [] {
      assert ws + u == ws;
      OnlySpaces(ws);
    } else {
      assert u[0] == if sign != [] then sign[0] else if s != [] then s[0] else tail[0];
      assert sign == [] && s == [] ==> tail[..1] == [tail[0]];
      SkipAll(ws, u);
    }
  }

  lemma {:induction false} OnlySpaces(ws: seq<char>)
    requires AllSpaces(ws)
    ensures SkipSpaces(ws) == []
  {
    if ws != [] {
      OnlySpaces(ws[1..]);
    }
  }

  // And every text has this shape, so nothing else remains to be said.
  lemma EveryTextHasShape(t: seq<char>) returns (ws: seq<char>, sign: seq<char>, s: seq<char>, tail: seq<char>)
    ensures Shape(t, ws, sign, s, tail)
  {
    var u;
    ws, u := LeadingSpaces(t);
    sign := if u != [] && (u[0] == '+' || u[0] == '-') then [u[0]] else [];
    s, tail := LeadingDigits(u[|sign|..]);
    assert u == sign + (s + tail);
    if tail != [] && s == [] && sign == [] {
      assert tail == u;
    }
  }

  lemma LeadingSpaces(t: seq<char>) returns (ws: seq<char>, u: seq<char>)
    ensures t == ws + u && AllSpaces(ws) && (u != [] ==> !AllSpaces(u[..1]))
  {
    if t == [] || !AllSpaces(t[..1]) {
      ws, u := [], t;
    } else {
      ws, u := LeadingSpaces(t[1..]);
      assert t[..1][0] == t[0];
      ws := [t[0]] + ws;
    }
  }

  lemma LeadingDigits(t: seq<char>) returns (s: seq<char>, u: seq<char>)
    ensures t == s + u && AllDigits(s) && (u != [] ==> !AllDigits(u[..1]))
  {
    if t == [] || !AllDigits(t[..1]) {
      s, u := [], t;
    } else {
      s, u := LeadingDigits(t[1..]);
      assert t[..1][0] == t[0];
      s := [t[0]] + s;
    }
  }

  // What itoa writes stands for its number.
  lemma {:induction false} DigitsStandFor(n: nat)
    ensures AllDigits(Digits(n)) && Value(Digits(n)) == n
  {
    if n <= 9 {
      assert Digits(n)[..0] == [];
    } else {
      DigitsStandFor(n / 10);
      assert Digits(n)[..|Digits(n)|-1] == Digits(n / 10);
    }
  }
}
