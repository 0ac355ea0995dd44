/** The text of the client list: which names fit a 512-byte message, and how
    a reader gets them back. */
module ClientListText {
  import opened Common

  /** What the appending loop produces when `used` characters are taken. */
  function ListText(names: seq<string>, used: nat): string {
    if names == [] || used + |names[0]| + 1 >= MAX_MSG_LEN then ""
    else names[0] + " " + ListText(names[1..], used + |names[0]| + 1)
  }

  /** One turn of the loop, after the characters `done`: either nothing more
      is written, or the next name and a space move over to what is done. */
  lemma ListTextFrom(names: seq<string>, i: nat, done: string)
    requires i <= |names|
    ensures i == |names| || |done| + |names[i]| + 1 >= MAX_MSG_LEN ==>
              done + ListText(names[i..], |done|) == done
    ensures i < |names| && |done| + |names[i]| + 1 < MAX_MSG_LEN ==>
              var done' := done + (names[i] + " ");
              done + ListText(names[i..], |done|) == done' + ListText(names[i + 1..], |done'|)
  {
    if i < |names| {
      assert names[i..][0] == names[i] && names[i..][1..] == names[i + 1..];
    }
  }

  /** Every name followed by one space. */
  function Joined(names: seq<string>): string {
    if names == [] then "" else names[0] + " " + Joined(names[1..])
  }

  /** How many names the loop gets through. */
  function FitCount(names: seq<string>, used: nat): (k: nat)
    ensures k <= |names|
  {
    if names == [] || used + |names[0]| + 1 >= MAX_MSG_LEN then 0
    else 1 + FitCount(names[1..], used + |names[0]| + 1)
  }

  lemma {:induction false} TextIsPrefix(names: seq<string>, used: nat)
    requires used < MAX_MSG_LEN
    ensures var k := FitCount(names, used);
            && ListText(names, used) == Joined(names[..k])
            && used + |Joined(names[..k])| < MAX_MSG_LEN
            && (k < |names| ==> used + |Joined(names[..k + 1])| >= MAX_MSG_LEN)
  {
    var k := FitCount(names, used);
    if k > 0 {
      TextIsPrefix(names[1..], used + |names[0]| + 1);
      assert names[..k][1..] == names[1..][..k - 1];
      if k < |names| {
        assert names[..k + 1][1..] == names[1..][..k];
      }
    }
  }

  lemma {:induction false} JoinedGrows(names: seq<string>, i: nat, j: nat)
    requires i <= j <= |names|
    ensures |Joined(names[..i])| <= |Joined(names[..j])|
  {
    if i > 0 {
      assert names[..i][1..] == names[1..][..i - 1];
      assert names[..j][1..] == names[1..][..j - 1];
      JoinedGrows(names[1..], i - 1, j - 1);
    }
  }

  /** The text is the longest prefix of the list that leaves room for the
      terminator: a prefix fits exactly when it is one the loop reached. */
  lemma LongestFittingPrefix(names: seq<string>, j: nat)
    requires j <= |names|
    ensures ListText(names, 0) == Joined(names[..FitCount(names, 0)])
    ensures |Joined(names[..j])| < MAX_MSG_LEN <==> j <= FitCount(names, 0)
  {
    var k := FitCount(names, 0);
    TextIsPrefix(names, 0);
    if j <= k {
      JoinedGrows(names, j, k);
    } else {
      JoinedGrows(names, k + 1, j);
    }
  }

  function UntilSpace(s: string): string {
    if s == "" || s[0] == ' ' then "" else [s[0]] + UntilSpace(s[1..])
  }

  /** Reads the list back: each word ends at a space. */
  function Split(s: string): seq<string>
    decreases |s|
  {
    if s == "" then []
    else
      var w := UntilSpace(s);
      [w] + Split(if |w| < |s| then s[|w| + 1..] else "")
  }

  lemma {:induction false} UntilSpaceIs(w: string, rest: string)
    requires ' ' !in w
    ensures UntilSpace(w + " " + rest) == w
  {
    if w != "" {
      UntilSpaceIs(w[1..], rest);
      assert (w + " " + rest)[1..] == w[1..] + " " + rest;
    }
  }

  lemma {:induction false} SplitJoined(names: seq<string>)
    requires forall n :: n in names ==> ' ' !in n
    ensures Split(Joined(names)) == names
  {
    if names != [] {
      var s := Joined(names);
      UntilSpaceIs(names[0], Joined(names[1..]));
      assert s[|names[0]| + 1..] == Joined(names[1..]);
      SplitJoined(names[1..]);
    }
  }

  /** Splitting the text on spaces gives back exactly the names that fitted. */
  lemma ListDecodes(names: seq<string>)
    requires forall n :: n in names ==> ' ' !in n
    ensures Split(ListText(names, 0)) == names[..FitCount(names, 0)]
  {
    TextIsPrefix(names, 0);
    SplitJoined(names[..FitCount(names, 0)]);
  }

  /** Two registries print alike only if the same names fitted. */
  lemma ListInjective(a: seq<string>, b: seq<string>)
    requires forall n :: n in a + b ==> ' ' !in n
    ensures ListText(a, 0) == ListText(b, 0) <==> a[..FitCount(a, 0)] == b[..FitCount(b, 0)]
  {
    ListDecodes(a);
    ListDecodes(b);
    TextIsPrefix(a, 0);
    TextIsPrefix(b, 0);
  }
}
