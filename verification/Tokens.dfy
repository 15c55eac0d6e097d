/**
 lib/string.c: strtok and its static cursor.
 */
module Tokens {
  import opened Strings

  // Where the static pointer stands in the string, if it is not NULL.
  datatype Cursor = Ended | Reading(place: nat)

  datatype Scan = Scan(buffer: seq<char>, cursor: Cursor)

  // ----------------------------------------------------------- what is meant

  // The first position from i on that is the end of the text or no delimiter.
  function Skip(t: seq<char>, i: nat, d: seq<char>): (k: nat)
    requires i <= |t|
    ensures i <= k <= |t|
    ensures forall j :: i <= j < k ==> t[j] in d
    ensures k < |t| ==> t[k] !in d
    decreases |t| - i
  {
    if i < |t| && t[i] in d then Skip(t, i + 1, d) else i
  }

  // The first position from i on that is the end of the text or a delimiter.
  function Reach(t: seq<char>, i: nat, d: seq<char>): (k: nat)
    requires i <= |t|
    ensures i <= k <= |t|
    ensures forall j :: i <= j < k ==> t[j] !in d
    ensures k < |t| ==> t[k] in d
    decreases |t| - i
  {
    if i < |t| && t[i] !in d then Reach(t, i + 1, d) else i
  }

  datatype Run = Run(start: nat, end: nat)

  // A maximal stretch without delimiters.
  ghost predicate IsRun(t: seq<char>, d: seq<char>, r: Run) {
    && r.start < r.end <= |t|
    && (forall j :: r.start <= j < r.end ==> t[j] !in d)
    && (r.start == 0 || t[r.start-1] in d)
    && (r.end == |t| || t[r.end] in d)
  }

  function FirstRun(t: seq<char>, i: nat, d: seq<char>): (r: Run)
    requires i <= |t|
    ensures i <= r.start <= r.end <= |t| && (r.start < |t| ==> r.start < r.end)
  {
    var a := Skip(t, i, d);
    Run(a, Reach(t, a, d))
  }

  // The runs from position i on.
  function Runs(t: seq<char>, i: nat, d: seq<char>): seq<Run>
    requires i <= |t|
    decreases |t| - i
  {
    var r := FirstRun(t, i, d);
    if r.start == |t| then []
    else if r.end == |t| then [r]
    else [r] + Runs(t, r.end + 1, d)
  }

  // Runs lists the maximal delimiter-free stretches: all of them, nothing
  // else, and in order.
  lemma {:induction false} RunsAreExact(t: seq<char>, i: nat, d: seq<char>, r: Run)
    requires i <= |t| && (i == 0 || t[i-1] in d)
    ensures r in Runs(t, i, d) <==> IsRun(t, d, r) && i <= r.start
    decreases |t| - i
  {
    var f := FirstRun(t, i, d);
    if f.start < |t| {
      RunsBegin(t, i, d);
      if IsRun(t, d, r) && i <= r.start {
        FirstRunIsFirst(t, i, d, r);
      }
      if f.end < |t| {
        RunsAreExact(t, f.end + 1, d, r);
      }
      hide IsRun, FirstRun;
    } else {
      assert i <= r.start < |t| ==> t[r.start] in d;
    }
  }

  lemma RunsBegin(t: seq<char>, i: nat, d: seq<char>)
    requires i <= |t| && (i == 0 || t[i-1] in d) && FirstRun(t, i, d).start < |t|
    ensures var f := FirstRun(t, i, d); IsRun(t, d, f) && i <= f.start
  {
  }

  lemma FirstRunIsFirst(t: seq<char>, i: nat, d: seq<char>, r: Run)
    requires i <= |t| && FirstRun(t, i, d).start < |t| && IsRun(t, d, r) && i <= r.start
    ensures var f := FirstRun(t, i, d); r == f || (f.end < |t| && f.end + 1 <= r.start)
  {
    var f := FirstRun(t, i, d);
    assert t[r.start] !in d && (r.start > 0 ==> t[r.start-1] in d) && (r.end < |t| ==> t[r.end] in d);
    assert f.end < |t| ==> t[f.end] in d;
  }

  // In order between i and n, with something between any two.
  ghost predicate InOrder(rs: seq<Run>, i: nat, n: nat) {
    && (forall k :: 0 <= k < |rs| ==> i <= rs[k].start < rs[k].end <= n)
    && (forall k, l :: 0 <= k < l < |rs| ==> rs[k].end < rs[l].start)
  }

  lemma PrependInOrder(r: Run, rs: seq<Run>, i: nat, n: nat)
    requires InOrder(rs, r.end + 1, n) && i <= r.start < r.end <= n
    ensures InOrder([r] + rs, i, n)
  {
    var all := [r] + rs;
    assert forall k :: 0 < k < |all| ==> all[k] == rs[k-1];
  }

  lemma {:induction false} RunsAreOrdered(t: seq<char>, i: nat, d: seq<char>)
    requires i <= |t|
    ensures InOrder(Runs(t, i, d), i, |t|)
    decreases |t| - i
  {
    var f := FirstRun(t, i, d);
    if f.start < |t| && f.end < |t| {
      RunsAreOrdered(t, f.end + 1, d);
      PrependInOrder(f, Runs(t, f.end + 1, d), i, |t|);
      hide InOrder, FirstRun;
    }
  }

  // --------------------------------------------------------------- one call

  // strtok from the cursor on: the new state, and the token's place or -1.
  datatype Outcome = Outcome(scan: Scan, token: int)

  // The text in sight of the cursor ends at the next NUL.
  ghost predicate Readable(s: Scan) {
    s.cursor.Reading? ==> s.cursor.place < |s.buffer| && IsString(s.buffer[s.cursor.place..])
  }

  ghost function End(s: Scan): (e: nat)
    requires Readable(s) && s.cursor.Reading?
    ensures s.cursor.place <= e < |s.buffer| && s.buffer[e] == NUL
    ensures forall i :: s.cursor.place <= i < e ==> s.buffer[i] != NUL
  {
    s.cursor.place + Length(s.buffer[s.cursor.place..])
  }

  ghost function Next(s: Scan, d: seq<char>): Outcome
    requires Readable(s)
  {
    if s.cursor.Ended? then Outcome(s, -1) else
    var t := s.buffer[..End(s)];
    var r := FirstRun(t, s.cursor.place, d);
    if r.start == |t| then Outcome(Scan(s.buffer, Ended), -1)
    else if r.end == |t| then Outcome(Scan(s.buffer, Ended), r.start)
    else Outcome(Scan(s.buffer[r.end := NUL], Reading(r.end + 1)), r.start)
  }

  // From position i on the buffer holds the text t and then a NUL.
  ghost predicate Ahead(s: seq<char>, t: seq<char>, i: nat) {
    |t| < |s| && s[|t|] == NUL && forall k :: i <= k < |t| ==> s[k] == t[k] && t[k] != NUL
  }

  class Tokenizer {
    var buffer: array?<char>    // what tok_tmp points into; null if it is NULL
    var place: nat

    ghost predicate Valid()
      reads this, buffer
    {
      buffer != null ==> Readable(Scan(buffer[..], Reading(place)))
    }

    // The static pointer is NULL at first.
    constructor ()
      ensures Valid() && buffer == null
    {
      buffer, place := null, 0;
    }

    // strtok on a string that is given, or on the rest of the last one.
    method Strtok(s1: array?<char>, s2: seq<char>) returns (token: int)
      requires Valid() && IsString(s2) && (s1 != null ==> IsString(s1[..]))
      modifies this, buffer, s1
      ensures Valid()
      ensures buffer == null || buffer == (if s1 != null then s1 else old(buffer))
      ensures old(buffer) == null && s1 == null ==> buffer == null && token == -1
      ensures var str := if s1 != null then s1 else old(buffer);
        str != null ==>
          var s := Scan(old(str[..]), Reading(if s1 != null then 0 else old(place)));
          Readable(s) && Next(s, Text(s2)) == Outcome(Scan(str[..], if buffer == null then Ended else Reading(place)), token)
    {
      if s1 != null {
        buffer, place := s1, 0;
        assert s1[..][0..] == s1[..];
      } else if buffer == null {
        return -1;
      }
      token := Scanned(s2);
    }

    // Past the delimiters in front of the token.
    method SkipLeading(str: array<char>, from: nat, s2: seq<char>, ghost t: seq<char>) returns (a: nat)
      requires IsString(s2) && from <= |t| && Ahead(str[..], t, from)
      ensures a == Skip(t, from, Text(s2)) && (str[a] == NUL <==> a == |t|)
    {
      ghost var e, d := |t|, Text(s2);
      var p := 0;
      a := from;
      while s2[p] != NUL && str[a] != NUL
        invariant from <= a <= e && p <= |d|
        invariant Skip(t, from, d) == Skip(t, a, d)
        invariant str[a] !in d[..p]
        decreases e - a, |d| - p
      {
        if str[a] == s2[p] {
          a := a + 1;
          p := 0;
        } else {
          p := p + 1;
        }
      }
    }

    // To the delimiter behind the token, if there is one.
    method SkipToken(str: array<char>, a: nat, s2: seq<char>, ghost t: seq<char>) returns (b: nat)
      requires IsString(s2) && a <= |t| && Ahead(str[..], t, a)
      ensures b == Reach(t, a, Text(s2)) && (str[b] == NUL <==> b == |t|)
    {
      ghost var e, d := |t|, Text(s2);
      b := a;
      while str[b] != NUL
        invariant a <= b <= e
        invariant Reach(t, a, d) == Reach(t, b, d)
        decreases e - b
      {
        var p := 0;
        while s2[p] != NUL
          invariant p <= |d| && str[b] !in d[..p]
          decreases |d| - p
        {
          if str[b] == s2[p] {
            return;
          }
          p := p + 1;
        }
        b := b + 1;
      }
    }

    // The token from position `from` on, and where to go on, or -1.
    method TakeToken(str: array<char>, from: nat, s2: seq<char>) returns (token: int, rest: int)
      requires IsString(s2) && Readable(Scan(str[..], Reading(from)))
      modifies str
      ensures Next(old(Scan(str[..], Reading(from))), Text(s2)) == Outcome(Scan(str[..], if rest < 0 then Ended else Reading(rest)), token)
    {
      ghost var s, d := Scan(str[..], Reading(from)), Text(s2);
      ghost var t := s.buffer[..End(s)];
      hide Skip, Reach, Next, End, Text, Readable, IsString, Ahead;
      AheadFrom(s, from);
      var a := SkipLeading(str, from, s2, t);
      if str[a] == NUL {
        NextIs(s, d, t, a, |t|);
        return -1, -1;
      }
      AheadFrom(s, a);
      var b := SkipToken(str, a, s2, t);
      NextIs(s, d, t, a, b);
      if str[b] == NUL {
        return a, -1;
      }
      str[b] := NUL;
      assert str[..] == s.buffer[b := NUL];
      return a, b + 1;
    }

    method Scanned(s2: seq<char>) returns (token: int)
      requires Valid() && buffer != null && IsString(s2)
      modifies this, buffer
      ensures Valid() && (buffer == null || buffer == old(buffer))
      ensures var s := Scan(old(buffer[..]), Reading(old(place)));
        Readable(s) && Next(s, Text(s2)) == Outcome(Scan(old(buffer)[..], if buffer == null then Ended else Reading(place)), token)
    {
      NextReadable(Scan(buffer[..], Reading(place)), Text(s2));
      hide Next, Text, Readable, IsString;
      var rest: int;
      token, rest := TakeToken(buffer, place, s2);
      if rest < 0 {
        buffer := null;
      } else {
        place := rest;
      }
    }
  }

  lemma AheadFrom(s: Scan, i: nat)
    requires Readable(s) && s.cursor.Reading? && s.cursor.place <= i
    ensures Ahead(s.buffer, s.buffer[..End(s)], i)
  {
  }

  lemma NextIs(s: Scan, d: seq<char>, t: seq<char>, a: nat, b: nat)
    requires Readable(s) && s.cursor.Reading? && t == s.buffer[..End(s)]
    requires a == Skip(t, s.cursor.place, d) && b == Reach(t, a, d)
    ensures Next(s, d) ==
      if a == |t| then Outcome(Scan(s.buffer, Ended), -1)
      else if b == |t| then Outcome(Scan(s.buffer, Ended), a)
      else Outcome(Scan(s.buffer[b := NUL], Reading(b + 1)), a)
  {
  }

  // ---------------------------------------------------------- calls in a row

  // The state after n calls with the same delimiters, the first of them given
  // the string.
  ghost function After(s: seq<char>, d: seq<char>, n: nat): (r: Scan)
    requires IsString(s)
    ensures Readable(r)
  {
    if n == 0 then assert s[0..] == s; Scan(s, Reading(0)) else
    NextReadable(After(s, d, n - 1), d);
    Next(After(s, d, n - 1), d).scan
  }

  lemma NextReadable(s: Scan, d: seq<char>)
    requires Readable(s)
    ensures Readable(Next(s, d).scan)
  {
    if s.cursor.Reading? {
      var e, t := End(s), Next(s, d).scan;
      if t.cursor.Reading? {
        LengthIs(t.buffer[t.cursor.place..], e - t.cursor.place);
      }
    }
  }

  // The runs not yet handed out.
  ghost function Pending(s: Scan, t: seq<char>, d: seq<char>): seq<Run> {
    if s.cursor.Ended? || s.cursor.place > |t| then [] else Runs(t, s.cursor.place, d)
  }

  // From the cursor on, the text t is as it was.
  ghost predicate Unread(s: Scan, t: seq<char>) {
    s.cursor.Reading? ==> s.cursor.place <= |t| && Ahead(s.buffer, t, s.cursor.place)
  }

  // A call hands out the first pending run and puts a NUL behind it, changing
  // nothing else; if no run is pending, it says so, now and ever after.
  ghost predicate Hands(s: Scan, t: seq<char>, d: seq<char>, o: Outcome) {
    var rs := Pending(s, t, d);
    && Unread(o.scan, t)
    && (rs == [] ==> o.token == -1 && o.scan == Scan(s.buffer, Ended))
    && (rs != [] ==>
          && o.token == rs[0].start && rs[0].end <= |t| < |s.buffer|
          && o.scan.buffer == s.buffer[rs[0].end := NUL]
          && Pending(o.scan, t, d) == rs[1..])
  }

  lemma NextHandsOut(s: Scan, t: seq<char>, d: seq<char>)
    requires Readable(s) && Unread(s, t)
    ensures Hands(s, t, d, Next(s, d))
  {
    hide FirstRun, IsString, End, Readable, Next, Runs;
    if s.cursor.Reading? {
      var r := FirstRun(t, s.cursor.place, d);
      NextGives(s, t, d);
      RunsStep(t, s.cursor.place, d);
      if r.start == |t| {
        hide Ahead;
      } else if r.end == |t| {
        hide Unread;
        assert s.buffer[|t| := NUL] == s.buffer;
      } else {
        HandsNext(s, t, d, r);
        hide Hands;
      }
    } else {
      EndedStays(s, d);
    }
  }

  lemma EndedStays(s: Scan, d: seq<char>)
    requires s.cursor.Ended?
    ensures Next(s, d) == Outcome(s, -1)
  {
  }

  lemma HandsNext(s: Scan, t: seq<char>, d: seq<char>, r: Run)
    requires Unread(s, t) && s.cursor.Reading? && s.cursor.place <= r.end < |t|
    requires var rs := Runs(t, s.cursor.place, d); rs != [] && rs[0] == r && rs[1..] == Runs(t, r.end + 1, d)
    ensures Hands(s, t, d, Outcome(Scan(s.buffer[r.end := NUL], Reading(r.end + 1)), r.start))
  {
    AheadOfCut(s.buffer, t, s.cursor.place, r.end);
    hide Runs;
  }

  lemma AheadOfCut(s: seq<char>, t: seq<char>, i: nat, e: nat)
    requires Ahead(s, t, i) && i <= e < |t|
    ensures Ahead(s[e := NUL], t, e + 1)
  {
  }

  lemma RunsStep(t: seq<char>, i: nat, d: seq<char>)
    requires i <= |t|
    ensures var (r, rs) := (FirstRun(t, i, d), Runs(t, i, d));
      && (rs == [] <==> r.start == |t|)
      && (rs != [] ==> rs[0] == r && rs[1..] == if r.end < |t| then Runs(t, r.end + 1, d) else [])
  {
    hide FirstRun;
  }

  lemma NextGives(s: Scan, t: seq<char>, d: seq<char>)
    requires Readable(s) && Unread(s, t) && s.cursor.Reading?
    ensures var r := FirstRun(t, s.cursor.place, d);
      Next(s, d) ==
        if r.start == |t| then Outcome(Scan(s.buffer, Ended), -1)
        else if r.end == |t| then Outcome(Scan(s.buffer, Ended), r.start)
        else Outcome(Scan(s.buffer[r.end := NUL], Reading(r.end + 1)), r.start)
  {
    hide FirstRun;
    EndIs(s, t);
    SameRun(t, s.buffer[..|t|], s.cursor.place, d);
  }

  lemma EndIs(s: Scan, t: seq<char>)
    requires Readable(s) && Unread(s, t) && s.cursor.Reading?
    ensures End(s) == |t|
  {
    LengthIs(s.buffer[s.cursor.place..], |t| - s.cursor.place);
  }

  lemma {:induction false} SameRun(t: seq<char>, u: seq<char>, i: nat, d: seq<char>)
    requires |t| == |u| && i <= |t| && forall j :: i <= j < |t| ==> t[j] == u[j]
    ensures FirstRun(t, i, d) == FirstRun(u, i, d)
  {
    SameSkip(t, u, i, d);
    SameReach(t, u, Skip(t, i, d), d);
  }

  lemma {:induction false} SameSkip(t: seq<char>, u: seq<char>, i: nat, d: seq<char>)
    requires |t| == |u| && i <= |t| && forall j :: i <= j < |t| ==> t[j] == u[j]
    ensures Skip(t, i, d) == Skip(u, i, d)
    decreases |t| - i
  {
    if i < |t| {
      SameSkip(t, u, i + 1, d);
    }
  }

  lemma {:induction false} SameReach(t: seq<char>, u: seq<char>, i: nat, d: seq<char>)
    requires |t| == |u| && i <= |t| && forall j :: i <= j < |t| ==> t[j] == u[j]
    ensures Reach(t, i, d) == Reach(u, i, d)
    decreases |t| - i
  {
    if i < |t| {
      SameReach(t, u, i + 1, d);
    }
  }

  // ---------------------------------------------------------- the main results

  ghost predicate Closes(rs: seq<Run>, n: nat, i: nat) {
    exists k :: 0 <= k < n && k < |rs| && rs[k].end == i
  }

  // s is what the string s0, which says t, is after n calls that handed out
  // the first n runs rs of t: there is a NUL behind each of those.
  ghost predicate Cut(s0: seq<char>, s: seq<char>, rs: seq<Run>, n: nat) {
    |s| == |s0| && forall i :: 0 <= i < |s0| ==> s[i] == if Closes(rs, n, i) then NUL else s0[i]
  }

  lemma CutMore(s0: seq<char>, s: seq<char>, rs: seq<Run>, n: nat)
    requires Cut(s0, s, rs, n)
    ensures n >= |rs| ==> Cut(s0, s, rs, n + 1)
    ensures n < |rs| && rs[n].end < |s| ==> Cut(s0, s[rs[n].end := NUL], rs, n + 1)
  {
    forall i | 0 <= i < |s0| ensures Closes(rs, n + 1, i) <==> Closes(rs, n, i) || (n < |rs| && rs[n].end == i) {
      if n < |rs| && rs[n].end == i {
        assert 0 <= n < n + 1;
      }
    }
    hide Closes;
  }

  function Left(rs: seq<Run>, n: nat): seq<Run> {
    if n < |rs| then rs[n..] else []
  }

  ghost predicate HandedOut(s0: seq<char>, t: seq<char>, d: seq<char>, n: nat, s: Scan) {
    var rs := Runs(t, 0, d);
    && Readable(s) && Unread(s, t) && Pending(s, t, d) == Left(rs, n) && Cut(s0, s.buffer, rs, n)
    && (n > |rs| ==> s.cursor.Ended?)
  }

  lemma NothingHandedOut(s0: seq<char>, t: seq<char>, d: seq<char>)
    requires Ahead(s0, t, 0) && Readable(Scan(s0, Reading(0)))
    ensures HandedOut(s0, t, d, 0, Scan(s0, Reading(0)))
  {
    hide Runs, Readable;
    assert Left(Runs(t, 0, d), 0) == Runs(t, 0, d);
  }

  lemma {:induction false} AfterHandsOut(s0: seq<char>, t: seq<char>, d: seq<char>, n: nat)
    requires Ahead(s0, t, 0) && IsString(s0)
    ensures HandedOut(s0, t, d, n, After(s0, d, n))
  {
    hide HandedOut, Next, Ahead, Readable, IsString;
    if n > 0 {
      AfterHandsOut(s0, t, d, n - 1);
      HandedOutOnce(s0, t, d, n - 1, After(s0, d, n - 1));
    } else {
      assert After(s0, d, 0) == Scan(s0, Reading(0));
      NothingHandedOut(s0, t, d);
    }
  }

  lemma HandedOutOnce(s0: seq<char>, t: seq<char>, d: seq<char>, n: nat, s: Scan)
    requires HandedOut(s0, t, d, n, s)
    ensures HandedOut(s0, t, d, n + 1, Next(s, d).scan)
    ensures var rs := Runs(t, 0, d); Next(s, d).token == if n < |rs| then rs[n].start else -1
  {
    hide Runs, Next, Readable, Unread, Cut;
    NextHandsOut(s, t, d);
    assert n < |Runs(t, 0, d)| ==> Left(Runs(t, 0, d), n)[1..] == Left(Runs(t, 0, d), n + 1);
    NextReadable(s, d);
    CutMore(s0, s.buffer, Runs(t, 0, d), n);
  }

  // In the buffer s, the run r of the text t stands as a string of its own.
  ghost predicate Stands(s: seq<char>, t: seq<char>, r: Run) {
    && r.start <= r.end <= |t| < |s| && s[r.end] == NUL
    && forall i :: r.start <= i < r.end ==> s[i] == t[i] && t[i] != NUL
  }

  lemma StandsReads(s: seq<char>, t: seq<char>, r: Run)
    requires Stands(s, t, r)
    ensures IsString(s[r.start..]) && Text(s[r.start..]) == t[r.start..r.end]
  {
    LengthIs(s[r.start..], r.end - r.start);
  }

  // The k-th call gives the k-th of the maximal delimiter-free stretches of
  // the string as it was at first, and after the last of them NULL, forever.
  // Each token reads as that stretch, then and after all later calls.
  lemma TokensAreTheRuns(s0: seq<char>, t: seq<char>, d: seq<char>, k: nat, n: nat)
    requires IsString(s0) && t == Text(s0) && k < n
    ensures var (rs, token, s) := (Runs(t, 0, d), Next(After(s0, d, k), d).token, After(s0, d, n));
      && (k >= |rs| ==> token == -1 && s.cursor.Ended?)
      && (k < |rs| ==>
            && token == rs[k].start && Stands(s.buffer, t, rs[k])
            && IsString(s.buffer[rs[k].start..]) && Text(s.buffer[rs[k].start..]) == t[rs[k].start..rs[k].end])
  {
    assert Ahead(s0, t, 0);
    hide After, Next, Runs, Text, IsString, Readable, Unread, Pending;
    AfterHandsOut(s0, t, d, k);
    AfterHandsOut(s0, t, d, n);
    HandedOutOnce(s0, t, d, k, After(s0, d, k));
    RunsAreOrdered(t, 0, d);
    if k < |Runs(t, 0, d)| {
      CutStands(s0, After(s0, d, n).buffer, t, Runs(t, 0, d), k, n);
      StandsReads(After(s0, d, n).buffer, t, Runs(t, 0, d)[k]);
    }
  }

  lemma CutStands(s0: seq<char>, s: seq<char>, t: seq<char>, rs: seq<Run>, k: nat, n: nat)
    requires Ahead(s0, t, 0) && Cut(s0, s, rs, n) && InOrder(rs, 0, |t|) && k < n && k < |rs|
    ensures Stands(s, t, rs[k])
  {
    var r := rs[k];
    assert Closes(rs, n, r.end);
    forall i | r.start <= i < r.end ensures s[i] == t[i] && t[i] != NUL {
      assert !Closes(rs, n, i);
    }
  }
}
