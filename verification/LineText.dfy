/** The text of a typed line and its second word, said of the characters typed,
    for every line. */
module LineText {
  import opened Common
  import opened CString
  import opened Commands

  // ---- the text of a line ----

  /** `text` is what is left of the characters read: it begins behind the spaces
      and tabs in front, and ends at the first NUL, at a final newline, or at the
      end. */
  predicate TextAt(raw: string, i: nat, j: nat) {
    && i <= j <= |raw|
    && (forall k :: 0 <= k < i ==> raw[k] == ' ' || raw[k] == '\t')
    && (i < j ==> raw[i] != ' ' && raw[i] != '\t')
    && (forall k :: 0 <= k < j ==> raw[k] != '\0')
    && (j == |raw| || raw[j] == '\0' || (j == |raw| - 1 && raw[j] == '\n'))
    && (j == |raw| && raw != "" ==> raw[|raw| - 1] != '\n')
  }

  ghost predicate TextOfLine(raw: string, text: string) {
    exists i: nat, j: nat :: TextAt(raw, i, j) && text == raw[i..j]
  }

  /** Where the leading blanks end. */
  lemma {:induction false} LstripAt(s: string) returns (i: nat)
    ensures i <= |s| && Lstrip(s) == s[i..]
    ensures forall k :: 0 <= k < i ==> s[k] == ' ' || s[k] == '\t'
    ensures i < |s| ==> s[i] != ' ' && s[i] != '\t'
  {
    i := 0;
    if s != "" && Blank(s[0]) {
      var i' := LstripAt(s[1..]);
      i := i' + 1;
    }
  }

  lemma TextIsNormalised(raw: string)
    ensures TextOfLine(raw, Normalised(raw))
  {
    var cut := Chomp(raw);
    CStrPrefix(cut);
    var s := CStr(cut);
    var i := LstripAt(s);
    var j := |s|;
    assert s == raw[..j] && Normalised(raw) == raw[i..j];
    forall k | 0 <= k < j ensures raw[k] != '\0' {
      assert raw[k] == s[k] && s[k] in s;
    }
    assert TextAt(raw, i, j);
  }

  lemma TextIsUnique(raw: string, i: nat, j: nat, i': nat, j': nat)
    requires TextAt(raw, i, j) && TextAt(raw, i', j')
    ensures j == j' && raw[i..j] == raw[i'..j']
  {
  }

  /** The trim, for every line: the client goes on with exactly this text. */
  lemma TextExactly(raw: string, text: string)
    ensures text == Normalised(raw) <==> TextOfLine(raw, text)
  {
    TextIsNormalised(raw);
    var i: nat, j: nat :| TextAt(raw, i, j) && Normalised(raw) == raw[i..j];
    if TextOfLine(raw, text) {
      var i': nat, j': nat :| TextAt(raw, i', j') && text == raw[i'..j'];
      TextIsUnique(raw, i, j, i', j');
    }
  }

  /** In particular spaces and tabs in front and one newline at the end go, and
      nothing else of a line without a NUL. */
  lemma BlanksAndNewlineGo(blanks: string, s: string)
    requires forall c :: c in blanks ==> c == ' ' || c == '\t'
    requires '\0' !in s && (s != "" ==> s[0] != ' ' && s[0] != '\t')
    ensures Normalised(blanks + s + "\n") == s
    ensures (s != "" && s[|s| - 1] != '\n') ==> Normalised(blanks + s) == s
  {
    var line := blanks + s;
    forall k | 0 <= k < |line| ensures line[k] != '\0' {
      assert line[k] in blanks || line[k] in s;
    }
    forall k | 0 <= k < |blanks| ensures blanks[k] == ' ' || blanks[k] == '\t' {
      assert blanks[k] in blanks;
    }
    assert TextAt(line + "\n", |blanks|, |line|) && (line + "\n")[|blanks|..|line|] == s;
    TextExactly(line + "\n", s);
    if s != "" && s[|s| - 1] != '\n' {
      assert TextAt(line, |blanks|, |line|) && line[|blanks|..|line|] == s;
      TextExactly(line, s);
    }
  }

  // ---- the second word ----

  /** Behind a first word and some spaces there is the word `w`. */
  predicate SecondAt(text: string, i: nat, j: nat, k: nat) {
    && 0 < i < j < k <= |text|
    && (forall m :: 0 <= m < i ==> text[m] != ' ')
    && (forall m :: i <= m < j ==> text[m] == ' ')
    && (forall m :: j <= m < k ==> text[m] != ' ')
    && (k < |text| ==> text[k] == ' ')
  }

  ghost predicate HasSecond(text: string, w: string) {
    exists i: nat, j: nat, k: nat :: SecondAt(text, i, j, k) && w == text[j..k]
  }

  lemma SpacesThen(spaces: string, rest: string)
    requires spaces != "" && (forall m :: 0 <= m < |spaces| ==> spaces[m] == ' ') && (rest != "" ==> rest[0] != ' ')
    ensures SkipSpaces((spaces + rest)[1..]) == rest
  {
    var more := spaces[1..];
    forall c | c in more ensures c == ' ' {
      var m :| 0 <= m < |more| && more[m] == c;
      assert more[m] == spaces[m + 1];
    }
    SkipSpacesRun(more, rest);
    assert (spaces + rest)[1..] == more + rest;
  }

  lemma SecondOf(first: string, spaces: string, w: string, rest: string)
    requires first != "" && ' ' !in first && spaces != "" && (forall m :: 0 <= m < |spaces| ==> spaces[m] == ' ')
    requires w != "" && ' ' !in w && (rest == "" || rest[0] == ' ')
    ensures SecondWord(first + (spaces + (w + rest))) == Some(w)
  {
    var tail := spaces + (w + rest);
    assert first[0] in first && w[0] in w;
    assert SkipSpaces(first + tail) == first + tail;
    WordThen(first, tail);
    SpacesThen(spaces, w + rest);
    WordThen(w, rest);
  }

  lemma SecondFound(text: string, i: nat, j: nat, k: nat)
    requires SecondAt(text, i, j, k)
    ensures SecondWord(text) == Some(text[j..k])
  {
    SecondOf(text[..i], text[i..j], text[j..k], text[k..]);
    assert text[j..] == text[j..k] + text[k..];
    assert text[i..] == text[i..j] + text[j..];
    assert text == text[..i] + text[i..];
  }

  lemma {:induction false} WordEndsAt(s: string) returns (i: nat)
    ensures i <= |s| && (forall m :: 0 <= m < i ==> s[m] != ' ') && (i < |s| ==> s[i] == ' ')
    ensures AfterWord(s) == if i < |s| then s[i + 1..] else ""
  {
    i := 0;
    if s != "" && s[0] != ' ' {
      var i' := WordEndsAt(s[1..]);
      i := i' + 1;
    }
  }

  lemma {:induction false} SpacesEndAt(s: string) returns (i: nat)
    ensures i <= |s| && (forall m :: 0 <= m < i ==> s[m] == ' ') && (i < |s| ==> s[i] != ' ')
    ensures SkipSpaces(s) == s[i..]
  {
    i := 0;
    if s != "" && s[0] == ' ' {
      var i' := SpacesEndAt(s[1..]);
      i := i' + 1;
    }
  }

  /** The word behind the spaces behind position `i`. */
  lemma PlaceBehind(text: string, i: nat) returns (j: nat, k: nat)
    requires i < |text| && text[i] == ' ' && SkipSpaces(text[i + 1..]) != ""
    ensures i < j < k <= |text| && (k < |text| ==> text[k] == ' ')
    ensures forall m :: i <= m < j ==> text[m] == ' '
    ensures forall m :: j <= m < k ==> text[m] != ' '
  {
    var rest := text[i + 1..];
    var d := SpacesEndAt(rest);
    j := i + 1 + d;
    forall m | i < m < j ensures text[m] == ' ' {
      assert text[m] == rest[m - i - 1];
    }
    var tail := text[j..];
    assert rest[d..] == tail;
    var e := WordEndsAt(tail);
    k := j + e;
    assert tail[0] == rest[d] != ' ';
    forall m | j <= m < k ensures text[m] != ' ' {
      assert text[m] == tail[m - j];
    }
    assert k < |text| ==> text[k] == tail[e];
  }

  lemma SecondPlace(text: string) returns (i: nat, j: nat, k: nat)
    requires text != "" && text[0] != ' ' && SecondWord(text).Some?
    ensures SecondAt(text, i, j, k)
  {
    assert SkipSpaces(text) == text;
    i := WordEndsAt(text);
    j, k := PlaceBehind(text, i);
  }

  /** `strtok`, twice: the second word of a text that begins with a word. */
  lemma SecondExactly(text: string, w: string)
    requires text != "" && text[0] != ' '
    ensures SecondWord(text) == Some(w) <==> HasSecond(text, w)
  {
    if SecondWord(text) == Some(w) {
      var i, j, k := SecondPlace(text);
      SecondFound(text, i, j, k);
    }
    if HasSecond(text, w) {
      var i: nat, j: nat, k: nat :| SecondAt(text, i, j, k) && w == text[j..k];
      SecondFound(text, i, j, k);
    }
  }

  // ---- what an idle client sends ----

  /** What an idle client sends for a text. */
  ghost predicate IdleSends(text: string, r: Option<Request>) {
    match r
    case Some(GetList) => text == "get_list"
    case Some(Connect(name)) => "connect" <= text && HasSecond(text, name)
    case Some(SetName(name)) => "set_name" <= text && HasSecond(text, name)
    case Some(_) => false
    case None =>
      && text != "get_list"
      && ("connect" <= text || "set_name" <= text ==> forall name :: !HasSecond(text, name))
  }

  /** Whatever an idle client's line is, this is all it can send, and it is
      determined by the text. */
  lemma IdleExactly(text: string, r: Option<Request>)
    ensures CommandRequest(text) == r <==> IdleSends(text, r)
  {
    var q := CommandRequest(text);
    assert "connect"[0] == 'c' && "set_name"[0] == 's' && "get_list"[0] == 'g';
    if "connect" <= text || "set_name" <= text {
      assert text != "" && text[0] != ' ';
      forall name ensures SecondWord(text) == Some(name) <==> HasSecond(text, name) {
        SecondExactly(text, name);
      }
    }
    Prefixes(text);
  }

  lemma Prefixes(text: string)
    ensures text == CMDS[0] <==> text == "get_list"
    ensures CMDS[1] <= text <==> "connect" <= text
    ensures CMDS[3] <= text <==> "set_name" <= text
    ensures CmdOf(text) == GetListCmd <==> text == "get_list"
    ensures CmdOf(text) == ConnectCmd <==> "connect" <= text
    ensures CmdOf(text) == SetNameCmd <==> "set_name" <= text
  {
    assert CMDS[1] == "connect" && CMDS[3] == "set_name";
    if "connect" <= text {
      OnlyClaim(1, text);
    }
    if "set_name" <= text {
      OnlyClaim(3, text);
    }
  }

  lemma OnlyClaim(i: nat, text: string)
    requires i < |CMDS| && Claims(i, text)
    ensures forall j: nat :: j < |CMDS| && j != i ==> !Claims(j, text)
  {
    forall j: nat | j < |CMDS| && Claims(j, text) ensures j == i {
      ClaimsDisjoint(i, j, text);
    }
  }
}
