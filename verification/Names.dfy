/** The name a client gets when it registers: "temp_client_name_%d". */
module Names {
  import opened Common

  const TEMP_PREFIX := "temp_client_name_"

  function Digit(d: nat): char
    requires d < 10
  {
    (48 + d) as char
  }

  /** What `%d` prints for a non-negative number. */
  function Decimal(n: nat): string {
    if n < 10 then [Digit(n)] else Decimal(n / 10) + [Digit(n % 10)]
  }

  /** Reads back a string of decimal digits. */
  function Parse(s: string): int {
    if s == "" then 0 else 10 * Parse(s[..|s| - 1]) + (s[|s| - 1] as int - 48)
  }

  function TempName(fd: Fd): string {
    TEMP_PREFIX + Decimal(if fd < 0 then 0 else fd)
  }

  lemma {:induction false} DecimalRoundTrip(n: nat)
    ensures Parse(Decimal(n)) == n
  {
    if n < 10 {
      assert Decimal(n)[..0] == "";
    } else {
      DecimalRoundTrip(n / 10);
      assert Decimal(n)[..|Decimal(n)| - 1] == Decimal(n / 10);
    }
  }

  /** Different clients get different registration names. */
  lemma TempNameInjective(a: Fd, b: Fd)
    requires 0 <= a && 0 <= b && TempName(a) == TempName(b)
    ensures a == b
  {
    DecimalRoundTrip(a);
    DecimalRoundTrip(b);
    assert Decimal(a) == TempName(a)[|TEMP_PREFIX|..];
    assert Decimal(b) == TempName(b)[|TEMP_PREFIX|..];
  }

  lemma TempsDiffer(a: Fd, k: Fd)
    requires ValidFd(a) && ValidFd(k) && a != k
    ensures TempName(a) != TempName(k)
  {
    if TempName(a) == TempName(k) {
      TempNameInjective(a, k);
    }
  }

  function Pow10(k: nat): nat {
    if k == 0 then 1 else 10 * Pow10(k - 1)
  }

  lemma {:induction false} DecimalShape(n: nat, k: nat)
    requires 0 < k && n < Pow10(k)
    ensures 0 < |Decimal(n)| <= k
    ensures forall c :: c in Decimal(n) ==> '0' <= c <= '9'
  {
    if n >= 10 {
      assert k > 1;
      DecimalShape(n / 10, k - 1);
    }
  }

  /** The characters a name may consist of: enough to print and split lists. */
  predicate Printable(name: string) {
    && name != ""
    && |name| < MAX_CLIENT_NAME_LEN
    && (forall c :: c in name ==> c != ' ' && c != '\0')
  }

  /** The registration name is at most 27 characters long, so it and its
      terminator stay inside the 64-byte name field; and it is one word. */
  lemma TempNameFits(fd: Fd)
    requires ValidFd(fd)
    ensures |TempName(fd)| <= 27
    ensures Printable(TempName(fd)) && TempName(fd) != UNDEF_NAME
  {
    assert Pow10(10) == 10_000_000_000 by {
      assert Pow10(5) == 100_000;
      assert Pow10(7) == 10_000_000;
      assert Pow10(9) == 1_000_000_000;
    }
    DecimalShape(fd, 10);
    assert TempName(fd)[0] == 't';
    assert |TEMP_PREFIX| == 17;
    forall c | c in TempName(fd) ensures c != ' ' && c != '\0' {
      assert c in TEMP_PREFIX || c in Decimal(fd);
    }
  }

  /** `s` is the decimal text of `n`: its digits from the last to the first. */
  predicate Prints(s: string, n: nat)
    decreases n
  {
    && s != "" && s[|s| - 1] as int == '0' as int + n % 10
    && if n < 10 then |s| == 1 else Prints(s[..|s| - 1], n / 10)
  }

  lemma {:induction false} DecimalPrints(n: nat)
    ensures Prints(Decimal(n), n)
  {
    if n >= 10 {
      DecimalPrints(n / 10);
      assert Decimal(n)[..|Decimal(n)| - 1] == Decimal(n / 10);
    }
  }

  /** A name that says which descriptor it was made for. */
  predicate NamedAfter(name: string, fd: Fd) {
    && 0 <= fd && |name| >= 18
    && name[..17] == "temp_client_name_"
    && Prints(name[17..], fd) && Parse(name[17..]) == fd
    && (forall c :: c in name[17..] ==> '0' <= c <= '9')
  }

  /** The registration name is the fixed beginning and the client's own
      descriptor in decimal, and nothing else. */
  lemma TempNameIsOwn(fd: Fd)
    requires ValidFd(fd)
    ensures NamedAfter(TempName(fd), fd)
  {
    DecimalRoundTrip(fd);
    DecimalPrints(fd);
    TempNameFits(fd);
    DecimalShape(fd, 10) by {
      assert Pow10(10) == 10_000_000_000 by {
        assert Pow10(5) == 100_000;
      }
    }
    assert TempName(fd)[..17] == TEMP_PREFIX && TempName(fd)[17..] == Decimal(fd);
  }
}
