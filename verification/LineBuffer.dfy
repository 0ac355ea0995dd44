/** The two places where the client edits its line buffer in place: the trim
    in `io_thread` and `strtok`. */
module LineBuffer {
  import opened CString
  import opened Commands
  import opened LineText

  lemma CStrCut(b: seq<char>, m: nat)
    requires m < |b| && b[m] == NUL
    ensures CStr(b) == CStr(b[..m])
  {
    CStrPrefix(b[..m]);
    var n := |CStr(b[..m])|;
    assert b[..m][..n] == b[..n];
    CStrIs(b, n);
  }

  lemma CStrSame(a: seq<char>, b: seq<char>, n: nat)
    requires n < |a| && n < |b| && a[..n + 1] == b[..n + 1]
    requires n == |CStr(a)|
    ensures CStr(b) == CStr(a)
  {
    CStrPrefix(a);
    assert a[..n] == a[..n + 1][..n] == b[..n];
    assert a[n] == a[..n + 1][n] == b[n];
    CStrIs(b, n);
  }

  /** Moves the `len` characters at `start` to the front, as memmove does. */
  method MoveDown(buf: array<char>, start: nat, len: nat)
    requires start + len <= buf.Length
    modifies buf
    ensures buf[..len] == old(buf[start..start + len])
    ensures buf[len..] == old(buf[len..])
  {
    var k := 0;
    while k < len
      invariant k <= len
      invariant forall j :: 0 <= j < k ==> buf[j] == old(buf[start + j])
      invariant forall j :: k <= j < buf.Length ==> buf[j] == old(buf[j])
    {
      buf[k] := buf[start + k];
      k := k + 1;
    }
  }

  lemma CStrStep(b: seq<char>, i: nat)
    requires i < |b|
    ensures CStr(b[i..]) == if b[i] == NUL then "" else [b[i]] + CStr(b[i + 1..])
    ensures NUL in b[i..] <==> b[i] == NUL || NUL in b[i + 1..]
  {
    assert b[i..] == [b[i]] + b[i + 1..];
  }

  /** Ends the string after the `bytes` characters read, or on their final
      newline. */
  method Terminate(buf: array<char>, bytes: nat)
    requires 0 < bytes < buf.Length
    modifies buf
    ensures NUL in buf[..] && CStr(buf[..]) == CStr(Chomp(old(buf[..bytes])))
  {
    ghost var raw := buf[..bytes];
    buf[bytes] := NUL;
    if buf[bytes - 1] == '\n' {
      buf[bytes - 1] := NUL;
    }
    ghost var m := |Chomp(raw)|;
    assert buf[..][..m] == Chomp(raw) && buf[..][m] == NUL;
    CStrCut(buf[..], m);
  }

  /** A blank in front of a string with a terminator behind it. */
  lemma BlankStep(b: seq<char>, i: nat)
    requires i < |b| && Blank(b[i]) && NUL in b[i..]
    ensures i + 1 < |b| && NUL in b[i + 1..]
    ensures Lstrip(CStr(b[i..])) == Lstrip(CStr(b[i + 1..]))
    ensures b[i] == ' ' ==> SkipSpaces(CStr(b[i..])) == SkipSpaces(CStr(b[i + 1..]))
  {
    CStrStep(b, i);
    var rest := CStr(b[i + 1..]);
    assert ([b[i]] + rest)[1..] == rest;
  }

  /** A string that does not begin with a blank is not shortened. */
  lemma NoBlank(b: seq<char>, i: nat)
    requires i < |b|
    ensures !Blank(b[i]) ==> Lstrip(CStr(b[i..])) == CStr(b[i..])
    ensures b[i] != ' ' ==> SkipSpaces(CStr(b[i..])) == CStr(b[i..])
  {
    CStrStep(b, i);
  }

  /** The walk to the first character that is neither a space nor a tab. */
  method FirstNonBlank(buf: array<char>) returns (start: nat)
    requires NUL in buf[..]
    ensures start < buf.Length && NUL in buf[start..]
    ensures CStr(buf[start..]) == Lstrip(CStr(buf[..]))
  {
    ghost var b := buf[..];
    start := 0;
    assert b[0..] == b;
    while buf[start] == ' ' || buf[start] == '\t'
      invariant start < buf.Length && NUL in b[start..]
      invariant Lstrip(CStr(b[start..])) == Lstrip(CStr(b))
      decreases buf.Length - start
    {
      BlankStep(b, start);
      start := start + 1;
    }
    NoBlank(b, start);
    assert buf[start..] == b[start..];
  }

  /** Moves the string at `start`, with its terminator, to the front. */
  method ShiftDown(buf: array<char>, start: nat)
    requires start < buf.Length && NUL in buf[start..]
    modifies buf
    ensures NUL in buf[..] && CStr(buf[..]) == old(CStr(buf[start..]))
  {
    ghost var rest := buf[start..];
    var len := StrLen(buf, start);
    assert buf[start..start + (len + 1)] == rest[..len + 1];
    MoveDown(buf, start, len + 1);
    Shifted(rest, buf[..], len);
  }

  lemma Shifted(a: seq<char>, b: seq<char>, n: nat)
    requires n < |a| && n < |b| && b[..n + 1] == a[..n + 1] && n == |CStr(a)|
    ensures CStr(b) == CStr(a) && NUL in b
  {
    CStrSame(a, b, n);
    CStrPrefix(a);
    assert b[n] == b[..n + 1][n] == a[n] == NUL;
  }

  /** Drops the final newline and the leading blanks of the `bytes` characters
      just read, in place. */
  method NormaliseInPlace(buf: array<char>, bytes: nat)
    requires 0 < bytes < buf.Length
    modifies buf
    ensures NUL in buf[..]
    ensures CStr(buf[..]) == Normalised(old(buf[..bytes])) && TextOfLine(old(buf[..bytes]), CStr(buf[..]))
  {
    TextIsNormalised(buf[..bytes]);
    Terminate(buf, bytes);
    var start := FirstNonBlank(buf);
    if start != 0 {
      ShiftDown(buf, start);
    } else {
      assert buf[0..] == buf[..];
    }
  }

  method SpanSpaces(buf: array<char>, from: nat) returns (i: nat)
    requires from < buf.Length && NUL in buf[from..]
    ensures from <= i < buf.Length && NUL in buf[i..]
    ensures CStr(buf[i..]) == SkipSpaces(CStr(buf[from..])) && buf[i] != ' '
  {
    ghost var b := buf[..];
    assert b[from..] == buf[from..];
    i := from;
    while buf[i] == ' '
      invariant from <= i < buf.Length && NUL in b[i..]
      invariant SkipSpaces(CStr(b[i..])) == SkipSpaces(CStr(b[from..]))
      decreases buf.Length - i
    {
      BlankStep(b, i);
      i := i + 1;
    }
    NoBlank(b, i);
    assert buf[i..] == b[i..];
  }

  lemma WordCons(c: char, s: string)
    requires c != ' '
    ensures Word([c] + s) == [c] + Word(s) && AfterWord([c] + s) == AfterWord(s)
  {
    assert ([c] + s)[1..] == s;
  }

  lemma WordEnds(b: seq<char>, end: nat)
    requires end < |b| && (b[end] == ' ' || b[end] == NUL)
    ensures Word(CStr(b[end..])) == ""
    ensures AfterWord(CStr(b[end..])) == if b[end] == ' ' then CStr(b[end + 1..]) else ""
  {
    CStrStep(b, end);
    if b[end] == ' ' {
      assert CStr(b[end..])[1..] == CStr(b[end + 1..]);
    }
  }

  lemma SliceCons(b: seq<char>, from: nat, end: nat)
    requires from < end <= |b|
    ensures b[from..end] == [b[from]] + b[from + 1..end]
  {
  }

  lemma {:induction false} WordSpan(b: seq<char>, from: nat, end: nat)
    requires from <= end < |b| && (b[end] == ' ' || b[end] == NUL)
    requires forall k :: from <= k < end ==> b[k] != ' ' && b[k] != NUL
    ensures Word(CStr(b[from..])) == b[from..end]
    ensures AfterWord(CStr(b[from..])) == AfterWord(CStr(b[end..]))
    ensures AfterWord(CStr(b[end..])) == if b[end] == ' ' then CStr(b[end + 1..]) else ""
    decreases end - from
  {
    WordEnds(b, end);
    if from == end {
      assert b[from..end] == "";
    } else {
      CStrStep(b, from);
      WordSpan(b, from + 1, end);
      WordCons(b[from], CStr(b[from + 1..]));
      SliceCons(b, from, end);
    }
  }

  method SpanWord(buf: array<char>, from: nat) returns (end: nat)
    requires from < buf.Length && NUL in buf[from..]
    ensures from <= end < buf.Length && (buf[end] == ' ' || buf[end] == NUL)
    ensures forall k :: from <= k < end ==> buf[k] != ' ' && buf[k] != NUL
  {
    assert buf[from..] == buf[..][from..];
    ghost var z := NulAt(buf[..], from);
    end := from;
    while buf[end] != ' ' && buf[end] != NUL
      invariant from <= end <= z
      invariant forall k :: from <= k < end ==> buf[k] != ' ' && buf[k] != NUL
      decreases z - end
    {
      end := end + 1;
    }
  }

  /** `strtok`, continuing at position `from`: the start of the next word, or
      -1, and where the call after this one continues. */
  method StrTok(buf: array<char>, from: nat) returns (tok: int, save: nat)
    requires from < buf.Length && NUL in buf[from..]
    modifies buf
    ensures -1 <= tok
    ensures tok == -1 <==> SkipSpaces(old(CStr(buf[from..]))) == ""
    ensures tok >= 0 ==>
              var rest := SkipSpaces(old(CStr(buf[from..])));
              && tok < save < buf.Length && NUL in buf[save..]
              && CStr(buf[tok..]) == Word(rest)
              && CStr(buf[save..]) == AfterWord(rest)
  {
    var start := SpanSpaces(buf, from);
    StartOfWord(buf[..], start);
    assert buf[..][start..] == buf[start..];
    if buf[start] == NUL {
      return -1, start;
    }
    var end := SpanWord(buf, start);
    save := CutAt(buf, start, end);
    tok := start;
  }

  lemma StartOfWord(b: seq<char>, start: nat)
    requires start < |b|
    ensures CStr(b[start..]) == "" <==> b[start] == NUL
  {
    CStrStep(b, start);
  }

  /** Ends the word at `start` in place: a space behind it is overwritten. */
  method CutAt(buf: array<char>, start: nat, end: nat) returns (save: nat)
    requires start < end < buf.Length && NUL in buf[start..] && (buf[end] == ' ' || buf[end] == NUL)
    requires forall k :: start <= k < end ==> buf[k] != ' ' && buf[k] != NUL
    modifies buf
    ensures start < save < buf.Length && NUL in buf[save..]
    ensures CStr(buf[start..]) == Word(old(CStr(buf[start..])))
    ensures CStr(buf[save..]) == AfterWord(old(CStr(buf[start..])))
  {
    ghost var b := buf[..];
    assert b[start..] == buf[start..];
    save := end;
    if buf[end] == ' ' {
      buf[end] := NUL;
      save := end + 1;
    }
    assert buf[..] == b[end := NUL];
    Tokenised(b, buf[..], start, end, CStr(b[start..]));
    assert buf[start..] == buf[..][start..] && buf[save..] == buf[..][save..];
  }

  /** The word and what is left, in the buffer `c` that is `b` cut off at `end`. */
  lemma Tokenised(b: seq<char>, c: seq<char>, start: nat, end: nat, rest: string)
    requires start < end < |b| && NUL in b[start..] && (b[end] == ' ' || b[end] == NUL)
    requires forall k :: start <= k < end ==> b[k] != ' ' && b[k] != NUL
    requires c == b[end := NUL] && rest == CStr(b[start..])
    ensures CStr(c[start..]) == Word(rest)
    ensures var save := if b[end] == ' ' then end + 1 else end;
            save < |c| && NUL in c[save..] && CStr(c[save..]) == AfterWord(rest)
  {
    WordSpan(b, start, end);
    Cut(b, c, start, end);
  }

  /** The buffer `c` is `b` with the word at `start` cut off at `end`. */
  lemma Cut(b: seq<char>, c: seq<char>, start: nat, end: nat)
    requires start < end < |b| && NUL in b[start..] && (b[end] == ' ' || b[end] == NUL)
    requires forall k :: start <= k < end ==> b[k] != ' ' && b[k] != NUL
    requires c == b[end := NUL]
    ensures CStr(c[start..]) == b[start..end]
    ensures var save := if b[end] == ' ' then end + 1 else end;
            && save < |c| && NUL in c[save..]
            && CStr(c[save..]) == (if b[end] == ' ' then CStr(b[end + 1..]) else "")
  {
    assert c[start..][..end - start] == b[start..end];
    CStrIs(c[start..], end - start);
    var z := NulAt(b, start);
    if b[end] == ' ' {
      assert c[end + 1..] == b[end + 1..];
      assert c[end + 1..][z - end - 1] == NUL;
    } else {
      assert c[end..][0] == NUL;
    }
  }
}
