/** One call running alone, as the client makes them: what it does to the store. */
module AcmeSolo {
  import opened AcmeTypes
  import opened AcmeMachine
  import opened AcmeSystem

  /** The store's invariant, for some record of what the server reported. */
  ghost predicate Sound(st: Store) {
    exists reported :: StoreOk(st, reported)
  }

  function Alone(c: Config, reported: map<nat, set<Status>>): Sys {
    Sys(c.store, map[0 := c.proc], multiset{}, reported)
  }

  /** Nothing changes but the row with this id and the certificate for this host. */
  predicate Only(st: Store, st': Store, id: nat, host: string) {
    && st.nextId <= st'.nextId
    && (forall k :: k in st.orders && k != id ==> k in st'.orders && st'.orders[k] == st.orders[k])
    && (forall h :: h in st.certs && h != host ==> h in st'.certs && st'.certs[h] == st.certs[h])
  }

  /** The row a call may write: the one it resumes, or one it inserted itself. */
  predicate OwnRow(p: Proc, id: nat, bound: nat) {
    Holds(p.phase) ==> p.row.id == id || p.row.id >= bound
  }

  lemma OnlyStep(st: Store, b: Config, e: Event, id: nat)
    requires Possible(b, e) && LocalOk(b.proc)
    requires Only(st, b.store, id, Lower(b.proc.hostnames[0])) && OwnRow(b.proc, id, st.nextId)
    requires forall k :: k in st.orders ==> k < st.nextId
    ensures Only(st, Persist(b.store, e), id, Lower(b.proc.hostnames[0]))
  {
    hide AuthzOk;
    match e
    case RowWritten(row, _, _) => assert Holds(b.proc.phase) && row.id == b.proc.row.id;
    case _ =>
  }

  lemma OwnRowStep(st: Store, b: Config, e: Event, id: nat)
    requires Possible(b, e) && OwnRow(b.proc, id, st.nextId) && st.nextId <= b.store.nextId
    ensures OwnRow(After(b.proc, e), id, st.nextId)
  {
    hide Answers, NextPhase, NextRow;
    if Holds(NextPhase(b.proc, e)) {
      HoldsOn(b.proc, e);
      SameRow(b.proc, e);
    }
  }

  lemma AloneStep(b: Config, e: Event, reported: map<nat, set<Status>>) returns (reported': map<nat, set<Status>>)
    requires SysInv(Alone(b, reported)) && Possible(b, e)
    ensures SysInv(Alone(Exec(b, e), reported'))
  {
    hide SysInv, Answers, Enabled, After, Persist, Touch, Note;
    var s := Alone(b, reported);
    AdvanceKeeps(s, 0, e);
    reported' := Note(reported, b.proc, e);
    assert s.procs[0 := After(b.proc, e)] == map[0 := After(b.proc, e)];
  }

  lemma {:induction false} AloneKeeps(c: Config, t: seq<Event>, id: nat, reported: map<nat, set<Status>>)
    returns (reported': map<nat, set<Status>>)
    requires SysInv(Alone(c, reported)) && IsRun(c, t) && OwnRow(c.proc, id, c.store.nextId)
    ensures SysInv(Alone(Run(c, t), reported')) && OwnRow(Run(c, t).proc, id, c.store.nextId)
    ensures Run(c, t).proc.hostnames == c.proc.hostnames != []
    ensures Only(c.store, Run(c, t).store, id, Lower(c.proc.hostnames[0]))
  {
    hide Answers, Enabled, Persist, Touch, Note, OwnRow, HostsOk, SavingOk, Agrees, RowOk, CertOk;
    InvParts(c, reported);
    if t == [] {
      reported' := reported;
    } else {
      var b, e := Run(c, t[..|t| - 1]), t[|t| - 1];
      reported' := AloneKeeps(c, t[..|t| - 1], id, reported);
      InvParts(b, reported');
      OnlyStep(c.store, b, e, id);
      OwnRowStep(c.store, b, e, id);
      reported' := AloneStep(b, e, reported');
    }
  }

  lemma InvParts(c: Config, reported: map<nat, set<Status>>)
    requires SysInv(Alone(c, reported))
    ensures LocalOk(c.proc) && c.proc.hostnames != [] && Sound(c.store)
    ensures forall k :: k in c.store.orders ==> k < c.store.nextId
  {
    assert Alone(c, reported).procs[0] == c.proc;
    assert StoreOk(c.store, reported);
  }

  /** An Order call leaves the store sound. It changes no row that was there, and no
      certificate but the one for its first host. */
  lemma OrderChanges(c: Config, t: seq<Event>)
    requires Sound(c.store) && IsRun(c, t)
    requires exists hostnames, ct, env :: hostnames != [] && ct != Unset && c.proc == StartOrder(hostnames, ct, env)
    ensures Sound(Run(c, t).store)
    ensures Only(c.store, Run(c, t).store, 0, Lower(c.proc.hostnames[0]))
  {
    var reported :| StoreOk(c.store, reported);
    var hostnames, ct, env :| hostnames != [] && ct != Unset && c.proc == StartOrder(hostnames, ct, env);
    LowerTwice(hostnames[0]);
    var reported' := AloneKeeps(c, t, 0, reported);
    InvParts(Run(c, t), reported');
  }

  /** A resume of a stored row leaves the store sound and changes no other row, and no
      certificate but the one for the row's first host. */
  lemma ResumeChanges(c: Config, t: seq<Event>, row: OrderRow, env: Env)
    requires Sound(c.store) && IsRun(c, t)
    requires row.id in c.store.orders && c.store.orders[row.id] == row && c.proc == StartResume(row, env)
    ensures Sound(Run(c, t).store)
    ensures row.hostnames != [] && Only(c.store, Run(c, t).store, row.id, Lower(row.hostnames[0]))
  {
    var reported :| StoreOk(c.store, reported);
    var reported' := AloneKeeps(c, t, row.id, reported);
    InvParts(Run(c, t), reported');
  }
}
