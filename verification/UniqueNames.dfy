/** When names identify clients. */
module UniqueNames {
  import opened Common
  import opened Names
  import opened Table
  import opened Handlers

  ghost predicate NamesDistinct(t: Table) {
    forall f, g :: f in t.at && g in t.at && t.at[f].name == t.at[g].name ==> f == g
  }

  /** Names of the registration form belong to the client they are made for. */
  ghost predicate TempNamesOwned(t: Table) {
    forall f :: f in t.at ==> t.at[f].name == TempName(f) || !(TEMP_PREFIX <= t.at[f].name)
  }

  /** A name the 64-byte field holds whole and that is not of that form. */
  predicate FairName(name: string) {
    |name| < MAX_CLIENT_NAME_LEN && !(TEMP_PREFIX <= name)
  }

  /** Setting a name duplicates one exactly when the server acknowledges it and
      its first 63 bytes are the name of another client. */
  lemma SetNameDistinct(t: Table, fd: Fd, name: string)
    requires Wf(t) && NamesDistinct(t) && fd in t.at
    ensures NamesDistinct(HandleSetName(t, fd, name).t) <==>
            !(FdByName(t, name) == INVALID_FD &&
              exists g :: g in t.at && g != fd && t.at[g].name == Clip(name, MAX_CLIENT_NAME_LEN - 1))
  {
    var t' := HandleSetName(t, fd, name).t;
    assert fd in t.order;
    if g :| g in t.at && g != fd && t.at[g].name == Clip(name, MAX_CLIENT_NAME_LEN - 1) {
      if FdByName(t, name) == INVALID_FD {
        assert t'.at[g].name == t'.at[fd].name;
      }
    }
  }

  /** Registering duplicates a name exactly when somebody already took the
      name made for the new descriptor. */
  lemma RegisterDistinct(t: Table, fd: Fd)
    requires NamesDistinct(t) && fd !in t.at
    ensures NamesDistinct(Register(t, fd)) <==> forall g :: g in t.at ==> t.at[g].name != TempName(fd)
  {
    var t' := Register(t, fd);
    if g :| g in t.at && t.at[g].name == TempName(fd) {
      assert t'.at[g].name == t'.at[fd].name;
    }
  }

  /** With fair names only, neither can happen. */
  lemma FairSetName(t: Table, fd: Fd, name: string)
    requires Wf(t) && NamesDistinct(t) && TempNamesOwned(t) && fd in t.at && FairName(name)
    ensures NamesDistinct(HandleSetName(t, fd, name).t) && TempNamesOwned(HandleSetName(t, fd, name).t)
  {
    SetNameDistinct(t, fd, name);
    FdByNameNone(t, name);
  }

  lemma FairRegister(t: Table, fd: Fd)
    requires Wf(t) && NamesDistinct(t) && TempNamesOwned(t) && ValidFd(fd) && fd !in t.at
    ensures NamesDistinct(Register(t, fd)) && TempNamesOwned(Register(t, fd))
  {
    forall g | g in t.at ensures t.at[g].name != TempName(fd) {
      if t.at[g].name == TempName(fd) {
        assert TEMP_PREFIX <= TempName(fd);
        TempNameInjective(g, fd);
      }
    }
    RegisterDistinct(t, fd);
  }

  /** With distinct names, finding a client by name and naming a client by
      descriptor undo each other. */
  lemma LookupsInverse(t: Table, fd: Fd, name: string)
    requires Wf(t) && NamesDistinct(t)
    ensures fd in t.at ==> FdByName(t, NameByFd(t, fd)) == fd
    ensures FdByName(t, name) != INVALID_FD ==> NameByFd(t, FdByName(t, name)) == name
  {
    FdByNameNone(t, NameByFd(t, fd));
    FdByNameNone(t, name);
  }

  lemma FindTemp(t: Table, b: Fd)
    requires Wf(t) && b in t.at && forall f :: f in t.at ==> t.at[f].name == TempName(f)
    ensures FdByName(t, TempName(b)) == b
    ensures forall f :: f in t.at && f != b ==> TempName(f) != TempName(b)
  {
    FdByNameNone(t, TempName(b));
    forall f | f in t.at && f != b ensures TempName(f) != TempName(b) {
      TempsDiffer(f, b);
    }
  }
}
