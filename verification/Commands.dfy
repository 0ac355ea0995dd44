/** From the bytes a user types to the request the client sends: the trim in
    `io_thread` (client/lib_src/client_lib.c), the command table and `strtok`
    (client/lib_src/user_iterectaions.c). */
module Commands {
  import opened Common
  import opened CString

  // ---- the line `io_thread` hands on ----

  predicate Blank(c: char) {
    c == ' ' || c == '\t'
  }

  function Lstrip(s: string): string {
    if s != "" && Blank(s[0]) then Lstrip(s[1..]) else s
  }

  function Chomp(raw: string): string {
    if raw != "" && raw[|raw| - 1] == '\n' then raw[..|raw| - 1] else raw
  }

  function Normalised(raw: string): string {
    Lstrip(CStr(Chomp(raw)))
  }

  // ---- the command table ----

  datatype Cmd = GetListCmd | ConnectCmd | DisconnectCmd | SetNameCmd | HelpCmd | ClearCmd | NoCmd

  const CMDS: seq<string> := ["get_list", "connect", DISCONNECT_CMD, "set_name", "help", "clear"]
  const CMD_IDS: seq<Cmd> := [GetListCmd, ConnectCmd, DisconnectCmd, SetNameCmd, HelpCmd, ClearCmd]

  /** Whether entry `i` claims the line: the whole line for most commands, the
      beginning of it for the two that take a name. */
  predicate Claims(i: nat, line: string)
    requires i < |CMDS|
  {
    line == CMDS[i] || ((i == 1 || i == 3) && CMDS[i] <= line)
  }

  /** No line belongs to two entries, so the order of the table is immaterial. */
  lemma ClaimsDisjoint(i: nat, j: nat, line: string)
    requires i < |CMDS| && j < |CMDS| && Claims(i, line) && Claims(j, line)
    ensures i == j
  {
    assert CMDS[i][..2] == line[..2] == CMDS[j][..2];
    assert CMDS[0][..2] == "ge" && CMDS[1][..2] == "co" && CMDS[2][..2] == "di";
    assert CMDS[3][..2] == "se" && CMDS[4][..2] == "he" && CMDS[5][..2] == "cl";
    assert CMDS[1][0] == 'c' && CMDS[1][1] == 'o' && CMDS[5][1] == 'l';
  }

  function CmdOf(line: string): Cmd {
    if Claims(0, line) then GetListCmd
    else if Claims(1, line) then ConnectCmd
    else if Claims(2, line) then DisconnectCmd
    else if Claims(3, line) then SetNameCmd
    else if Claims(4, line) then HelpCmd
    else if Claims(5, line) then ClearCmd
    else NoCmd
  }

  /** get_cmd_id_by_name: the entry it stops at is the only one that claims
      the line, and it stops at none only if none does. */
  method GetCmdId(line: string) returns (cmd: Cmd)
    ensures cmd == CmdOf(line)
    ensures forall i :: 0 <= i < |CMDS| ==> (Claims(i, line) <==> cmd == CMD_IDS[i])
    ensures cmd == NoCmd <==> forall i :: 0 <= i < |CMDS| ==> !Claims(i, line)
  {
    cmd := NoCmd;
    var i := 0;
    while i < |CMDS|
      invariant i <= |CMDS| && cmd == NoCmd
      invariant forall j :: 0 <= j < i ==> !Claims(j, line)
    {
      if line == CMDS[i] {
        cmd := CMD_IDS[i];
        break;
      }
      if i == 3 || i == 1 {
        if |line| >= |CMDS[i]| && line[..|CMDS[i]|] == CMDS[i] {
          cmd := CMD_IDS[i];
          break;
        }
      }
      i := i + 1;
    }
    if i < |CMDS| {
      assert Claims(i, line);
      forall j | 0 <= j < |CMDS| && Claims(j, line) ensures j == i {
        ClaimsDisjoint(i, j, line);
      }
    }
  }

  // ---- strtok(line, " ") ----

  function SkipSpaces(s: string): string {
    if s != "" && s[0] == ' ' then SkipSpaces(s[1..]) else s
  }

  function Word(s: string): string {
    if s == "" || s[0] == ' ' then "" else [s[0]] + Word(s[1..])
  }

  /** What is left for the next call: the space behind the word is consumed. */
  function AfterWord(s: string): string {
    if s == "" then "" else if s[0] == ' ' then s[1..] else AfterWord(s[1..])
  }

  /** The second word of a line, if it has one. */
  function SecondWord(line: string): Option<string> {
    var rest := SkipSpaces(AfterWord(SkipSpaces(line)));
    if SkipSpaces(line) == "" || rest == "" then None else Some(Word(rest))
  }

  /** What an idle client asks the server for, given a line. */
  function CommandRequest(line: string): Option<Request> {
    match CmdOf(line)
    case GetListCmd => Some(GetList)
    case ConnectCmd => (match SecondWord(line) case Some(n) => Some(Connect(n)) case None => None)
    case SetNameCmd => (match SecondWord(line) case Some(n) => Some(SetName(n)) case None => None)
    case _ => None
  }

  // ---- round trip ----

  /** A word that a command line can carry as a name. */
  predicate OneWord(name: string) {
    name != "" && forall c :: c in name ==> c != ' ' && c != '\n' && c != NUL
  }

  lemma {:induction false} LstripBlanks(blanks: string, s: string)
    requires forall c :: c in blanks ==> c == ' ' || c == '\t'
    requires s == "" || (s[0] != ' ' && s[0] != '\t')
    ensures Lstrip(blanks + s) == s
  {
    if blanks == "" {
      assert blanks + s == s;
    } else {
      assert blanks[0] in blanks && forall c :: c in blanks[1..] ==> c in blanks;
      LstripBlanks(blanks[1..], s);
      assert (blanks + s)[1..] == blanks[1..] + s;
    }
  }

  lemma {:induction false} SkipSpacesRun(spaces: string, s: string)
    requires forall c :: c in spaces ==> c == ' '
    requires s == "" || s[0] != ' '
    ensures SkipSpaces(spaces + s) == s
  {
    if spaces == "" {
      assert spaces + s == s;
    } else {
      assert spaces[0] in spaces;
      assert forall c :: c in spaces[1..] ==> c in spaces;
      SkipSpacesRun(spaces[1..], s);
      assert (spaces + s)[1..] == spaces[1..] + s;
    }
  }

  lemma {:induction false} WordThen(w: string, rest: string)
    requires ' ' !in w
    requires rest == "" || rest[0] == ' '
    ensures Word(w + rest) == w
    ensures AfterWord(w + rest) == if rest == "" then "" else rest[1..]
  {
    if w == "" {
      assert w + rest == rest;
    } else {
      assert w[0] in w;
      WordThen(w[1..], rest);
      assert (w + rest)[1..] == w[1..] + rest;
    }
  }

  lemma SecondWordOf(cmd: string, spaces: string, name: string)
    requires cmd != "" && ' ' !in cmd
    requires spaces != "" && forall c :: c in spaces ==> c == ' '
    requires OneWord(name)
    ensures SecondWord(cmd + spaces + name) == Some(name)
  {
    var line := cmd + spaces + name;
    var tail := spaces + name;
    assert line == cmd + tail;
    assert cmd[0] in cmd && name[0] in name && spaces[0] in spaces;
    SkipSpacesRun("", line);
    assert "" + line == line;
    WordThen(cmd, tail);
    assert forall c :: c in spaces[1..] ==> c in spaces;
    SkipSpacesRun(spaces[1..], name);
    assert tail[1..] == spaces[1..] + name;
    WordThen(name, "");
    assert name + "" == name;
  }

  /** Typing `connect <name>` or `set_name <name>`, with any blanks in front
      and any positive number of spaces between, asks for exactly that name. */
  lemma CommandRoundTrip(blanks: string, cmd: string, spaces: string, name: string)
    requires forall c :: c in blanks ==> c == ' ' || c == '\t'
    requires cmd == "connect" || cmd == "set_name"
    requires spaces != "" && forall c :: c in spaces ==> c == ' '
    requires OneWord(name)
    ensures var raw := blanks + (cmd + spaces + name) + "\n";
            CommandRequest(Normalised(raw)) == Some(if cmd == "connect" then Connect(name) else SetName(name))
  {
    var line := cmd + spaces + name;
    var raw := blanks + line + "\n";
    assert Chomp(raw) == blanks + line;
    forall c | c in blanks + line ensures c != NUL {
      assert c in blanks || c in cmd || c in spaces || c in name;
    }
    assert (blanks + line)[..|blanks + line|] == blanks + line;
    CStrIs(blanks + line, |blanks + line|);
    assert line[0] == cmd[0];
    LstripBlanks(blanks, line);
    assert cmd <= line;
    var i: nat := if cmd == "connect" then 1 else 3;
    assert Claims(i, line);
    forall j: nat | j < |CMDS| && Claims(j, line) ensures j == i {
      ClaimsDisjoint(i, j, line);
    }
    assert ' ' !in cmd;
    SecondWordOf(cmd, spaces, name);
  }

  // ---- what a typed name can look like ----

  lemma {:induction false} LstripKeeps(s: string)
    ensures forall c :: c in Lstrip(s) ==> c in s
  {
    if s != "" && Blank(s[0]) {
      LstripKeeps(s[1..]);
    }
  }

  lemma {:induction false} SkipSpacesKeeps(s: string)
    ensures forall c :: c in SkipSpaces(s) ==> c in s
    ensures SkipSpaces(s) == "" || SkipSpaces(s)[0] != ' '
  {
    if s != "" && s[0] == ' ' {
      SkipSpacesKeeps(s[1..]);
    }
  }

  lemma {:induction false} WordKeeps(s: string)
    ensures forall c :: c in Word(s) ==> c in s && c != ' '
    ensures s != "" && s[0] != ' ' ==> Word(s) != ""
  {
    if s != "" && s[0] != ' ' {
      WordKeeps(s[1..]);
    }
  }

  lemma {:induction false} AfterWordKeeps(s: string)
    ensures forall c :: c in AfterWord(s) ==> c in s
  {
    if s != "" && s[0] != ' ' {
      AfterWordKeeps(s[1..]);
    }
  }

  /** One non-empty word without a NUL. */
  predicate IsWord(name: string) {
    name != "" && forall c :: c in name ==> c != ' ' && c != NUL
  }

  /** Whatever is typed, a name that reaches the server, to be taken or to be
      asked for, is one word. */
  lemma TypedNameIsWord(raw: string)
    ensures var r := CommandRequest(Normalised(raw));
            && (r.Some? && r.value.SetName? ==> IsWord(r.value.name))
            && (r.Some? && r.value.Connect? ==> IsWord(r.value.target))
  {
    CStrPrefix(Chomp(raw));
    LstripKeeps(CStr(Chomp(raw)));
    var line := Normalised(raw);
    var s1 := SkipSpaces(line);
    var s2 := AfterWord(s1);
    SkipSpacesKeeps(line);
    AfterWordKeeps(s1);
    SkipSpacesKeeps(s2);
    WordKeeps(SkipSpaces(s2));
  }
}
