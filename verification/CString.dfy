/** NUL-terminated strings in fixed buffers, and the in-place library calls
    the program makes on them. */
module CString {

  const NUL := '\0'

  /** The C string stored at the start of a buffer. */
  function CStr(b: seq<char>): string {
    if b == [] || b[0] == NUL then "" else [b[0]] + CStr(b[1..])
  }

  predicate NulFree(s: string) {
    NUL !in s
  }

  /** Where the terminator is; a buffer without one counts as full. */
  lemma {:induction false} CStrIs(b: seq<char>, n: nat)
    requires n <= |b| && NulFree(b[..n]) && (n == |b| || b[n] == NUL)
    ensures CStr(b) == b[..n]
  {
    if n > 0 {
      assert b[0] in b[..n];
      assert b[1..][..n - 1] == b[..n][1..];
      CStrIs(b[1..], n - 1);
      assert b[..n] == [b[0]] + b[1..][..n - 1];
    }
  }

  lemma {:induction false} CStrPrefix(b: seq<char>)
    ensures |CStr(b)| <= |b| && CStr(b) == b[..|CStr(b)|] && NulFree(CStr(b))
    ensures |CStr(b)| < |b| ==> b[|CStr(b)|] == NUL
  {
    if b != [] && b[0] != NUL {
      CStrPrefix(b[1..]);
    }
  }

  /** A terminator somewhere behind `from`. */
  lemma NulAt(b: seq<char>, from: nat) returns (z: nat)
    requires from <= |b| && NUL in b[from..]
    ensures from <= z < |b| && b[z] == NUL
  {
    var k :| 0 <= k < |b[from..]| && b[from..][k] == NUL;
    z := from + k;
  }

  /** `strlen`. */
  method StrLen(buf: array<char>, from: nat) returns (n: nat)
    requires from <= buf.Length
    requires NUL in buf[from..]
    ensures n == |CStr(buf[from..])| && from + n < buf.Length
  {
    assert buf[from..] == buf[..][from..];
    ghost var z := NulAt(buf[..], from);
    n := 0;
    while buf[from + n] != NUL
      invariant from + n <= z
      invariant forall j :: from <= j < from + n ==> buf[j] != NUL
      decreases z - n
    {
      n := n + 1;
    }
    assert NulFree(buf[from..][..n]);
    CStrIs(buf[from..], n);
  }

  /** Copies the first `m` characters of `s` to position `at`. */
  method CopyTo(buf: array<char>, at: nat, s: string, m: nat)
    requires m <= |s| && at + m <= buf.Length
    modifies buf
    ensures buf[..at] == old(buf[..at]) && buf[at..at + m] == s[..m]
  {
    var k := 0;
    while k < m
      invariant k <= m
      invariant forall j :: 0 <= j < at ==> buf[j] == old(buf[j])
      invariant forall j :: 0 <= j < k ==> buf[at + j] == s[j]
    {
      buf[at + k] := s[k];
      k := k + 1;
    }
  }

  /** `strncat(buf, s, n)`: writes at most `n` characters of `s` and a
      terminator after the string already in `buf`. */
  method StrNCat(buf: array<char>, s: string, n: nat)
    requires NUL in buf[..] && NulFree(s)
    requires |CStr(buf[..])| + (if |s| <= n then |s| else n) < buf.Length
    modifies buf
    ensures CStr(buf[..]) == old(CStr(buf[..])) + (if |s| <= n then s else s[..n])
    ensures NUL in buf[..]
  {
    assert buf[0..] == buf[..];
    var len := StrLen(buf, 0);
    CStrPrefix(buf[..]);
    var m := if |s| <= n then |s| else n;
    CopyTo(buf, len, s, m);
    buf[len + m] := NUL;
    Appended(buf[..], len, m);
  }

  lemma Appended(b: seq<char>, len: nat, m: nat)
    requires len + m < |b| && b[len + m] == NUL && NulFree(b[..len]) && NulFree(b[len..len + m])
    ensures CStr(b) == b[..len] + b[len..len + m] && NUL in b
  {
    assert b[..len + m] == b[..len] + b[len..len + m];
    CStrIs(b, len + m);
  }
}
