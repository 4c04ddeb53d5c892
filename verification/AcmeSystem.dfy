/** Any number of Order and resumeOrder calls over one store, their steps
    interleaved in any way, made by any number of processes that may crash at any
    point (which loses calls and listings and keeps the store). */
module AcmeSystem {
  import opened AcmeTypes
  import opened AcmeMachine

  /** The store, the calls in progress, the rows that were listed for resumption and
      have not been passed to resumeOrder yet, and (for the record) the statuses the
      server has reported for each order. */
  datatype Sys = Sys(
    store: Store,
    procs: map<nat, Proc>,
    listed: multiset<OrderRow>,
    reported: map<nat, set<Status>>)

  datatype Act =
    | CallOrder(pid: nat, hostnames: seq<string>, challenge: ChallengeType, env: Env)
    | List(status: Status)
    | CallResume(pid: nat, row: OrderRow, env: Env)
    | Advance(pid: nat, event: Event)
    | Crash(pids: set<nat>, rows: multiset<OrderRow>)

  predicate InFlight(s: Status) {
    s == Pending || s == Ready || s == Processing
  }

  lemma InFlightIs(s: Status)
    ensures InFlight(s) <==> s in {Pending, Ready, Processing}
  {
  }

  /** The rows with a status, as ListACMEOrdersByStatus copies them. */
  function Bucket(st: Store, status: Status): set<OrderRow> {
    set id | id in st.orders && st.orders[id].status == status :: st.orders[id]
  }

  /** resumeInFlightOrders lists rows by these three statuses only, and resumes each from
      the copy it listed. A crash takes some calls and some listings with it; one that
      takes listings only is a pass that stops short. */
  predicate CanAct(s: Sys, a: Act) {
    match a
    case CallOrder(pid, hostnames, ct, env) => pid !in s.procs && hostnames != [] && ct != Unset
    case List(status) => InFlight(status)
    case CallResume(pid, row, env) => pid !in s.procs && row in s.listed
    case Advance(pid, e) => pid in s.procs && Answers(s.procs[pid], e) && Enabled(s.store, e)
    case Crash(pids, rows) => true
  }

  function Note(reported: map<nat, set<Status>>, p: Proc, e: Event): map<nat, set<Status>> {
    if e.OrderReported? then
      var before := if p.row.id in reported then reported[p.row.id] else {};
      reported[p.row.id := before + {e.doc.status}]
    else reported
  }

  function Do(s: Sys, a: Act): Sys
    requires CanAct(s, a)
  {
    match a
    case CallOrder(pid, hostnames, ct, env) => s.(procs := s.procs[pid := StartOrder(hostnames, ct, env)])
    case List(status) => s.(listed := s.listed + multiset(Bucket(s.store, status)))
    case CallResume(pid, row, env) =>
      s.(procs := s.procs[pid := StartResume(row, env)], listed := s.listed - multiset{row})
    case Advance(pid, e) =>
      var p := s.procs[pid];
      Sys(Persist(s.store, e), s.procs[pid := After(p, e)], s.listed, Note(s.reported, p, e))
    case Crash(pids, rows) => s.(procs := s.procs - pids, listed := s.listed - rows)
  }

  /** A behaviour: the states passed through, and what was done in each. */
  predicate Behaves(ss: seq<Sys>, acts: seq<Act>) {
    && |ss| == |acts| + 1
    && forall i :: 0 <= i < |acts| ==> CanAct(ss[i], acts[i]) && ss[i + 1] == Do(ss[i], acts[i])
  }

  // -- The invariant --------------------------------------------------------

  predicate StatusOk(reported: map<nat, set<Status>>, id: nat, s: Status) {
    s == Pending || s == Invalid || (id in reported && s in reported[id])
  }

  predicate RowOk(reported: map<nat, set<Status>>, row: OrderRow) {
    && row.hostnames != []
    && Lower(row.hostnames[0]) == row.hostnames[0]
    && row.challenge != Unset
    && StatusOk(reported, row.id, row.status)
  }

  /** A certificate's order (0 when it was imported) is the order for its host. */
  predicate CertOk(orders: map<nat, OrderRow>, h: string, cert: Cert) {
    && cert.hostname == h
    && Lower(h) == h
    && (cert.orderID != 0 ==>
          && cert.orderID in orders
          && orders[cert.orderID].hostnames != []
          && orders[cert.orderID].hostnames[0] == h)
  }

  predicate StoreOk(st: Store, reported: map<nat, set<Status>>) {
    && st.nextId > 0
    && (forall id :: id in st.orders ==> 0 < id < st.nextId && st.orders[id].id == id && RowOk(reported, st.orders[id]))
    && (forall h :: h in st.certs ==> CertOk(st.orders, h, st.certs[h]))
  }

  /** The call may still write its row. */
  predicate Holds(ph: Phase) {
    !(ph.Starting? || ph.Inserting? || ph.CleaningUp? || ph.Done?)
  }

  /** The call has inserted its row and not yet recorded the order URL. */
  predicate Owns(ph: Phase) {
    ph.Ordering? || ph.PersistPlaced?
  }

  /** What a call's own variables satisfy: the row is for the call's hosts, and
      still blank until the order is placed; */
  predicate HostsOk(p: Proc) {
    && p.hostnames != []
    && p.row.hostnames != []
    && p.row.hostnames[0] == Lower(p.hostnames[0])
    && Lower(p.row.hostnames[0]) == p.row.hostnames[0]
    && p.row.challenge != Unset
    && (p.phase.Starting? || p.phase.Inserting? ==> p.row.status == Pending)
    && (p.phase.Starting? || p.phase.Inserting? || p.phase.Ordering? ==> p.row.orderURL == "")
  }

  /** what it is about to save belongs to that row; */
  predicate SavingOk(p: Proc) {
    && (p.phase.Downloading? || p.phase.Parsing? || p.phase.Saving? || p.phase.PersistSaved? ==> p.row.status == Valid)
    && (p.phase.Saving? && p.hostnames != [] ==> p.phase.cert.hostname == Lower(p.hostnames[0]))
    && (p.phase.Saving? ==> p.phase.cert.orderID == p.row.id)
  }

  /** and the authorisation it is at is one that the order listed. */
  predicate AuthzOk(p: Proc) {
    match p.phase
    case Authorizing(k) => k < |p.authzs|
    case Provisioning(k, _, _) => k < |p.authzs|
    case Acking(k, _) => k < |p.authzs|
    case AuthzWaiting(k, _) => k < |p.authzs|
    case AuthzPolling(k, _) => k < |p.authzs|
    case _ => true
  }

  predicate LocalOk(p: Proc) {
    HostsOk(p) && SavingOk(p) && AuthzOk(p)
  }

  /** How they agree with the stored row. */
  predicate Agrees(st: Store, reported: map<nat, set<Status>>, p: Proc) {
    && p.row.id in st.orders
    && st.orders[p.row.id].hostnames == p.row.hostnames
    && st.orders[p.row.id].challenge == p.row.challenge
    && StatusOk(reported, p.row.id, p.row.status)
    && st.orders[p.row.id].orderURL == (if Owns(p.phase) then "" else p.row.orderURL)
  }

  predicate ProcOk(st: Store, reported: map<nat, set<Status>>, p: Proc) {
    LocalOk(p) && (Holds(p.phase) ==> Agrees(st, reported, p))
  }

  predicate OwnersAlone(procs: map<nat, Proc>) {
    forall a, b :: a in procs && b in procs && a != b && Owns(procs[a].phase) && Holds(procs[b].phase) ==>
                     procs[a].row.id != procs[b].row.id
  }

  /** A listed copy may be out of date, but not in its hosts and challenge, and not in its
      order URL once it has one. */
  predicate ListedOk(st: Store, reported: map<nat, set<Status>>, row: OrderRow) {
    && row.id in st.orders
    && st.orders[row.id].hostnames == row.hostnames
    && st.orders[row.id].challenge == row.challenge
    && RowOk(reported, row)
    && (row.orderURL != "" ==> st.orders[row.id].orderURL == row.orderURL)
  }

  predicate AllListedOk(st: Store, reported: map<nat, set<Status>>, rows: multiset<OrderRow>) {
    forall row :: row in rows ==> ListedOk(st, reported, row)
  }

  predicate SysInv(s: Sys) {
    && StoreOk(s.store, s.reported)
    && (forall pid :: pid in s.procs ==> ProcOk(s.store, s.reported, s.procs[pid]))
    && OwnersAlone(s.procs)
    && AllListedOk(s.store, s.reported, s.listed)
  }

  // -- What one event may do to the store -----------------------------------

  /** Rows are never removed; hosts and challenge never change; only the row of
      the call itself changes; and a recorded order URL stays. */
  predicate Extends(st: Store, st': Store, p: Proc) {
    && st.nextId <= st'.nextId
    && (forall id :: id in st.orders ==>
          && id in st'.orders
          && st'.orders[id].hostnames == st.orders[id].hostnames
          && st'.orders[id].challenge == st.orders[id].challenge
          && (id != p.row.id || !Holds(p.phase) ==> st'.orders[id] == st.orders[id])
          && (st'.orders[id].orderURL == st.orders[id].orderURL
              || (id == p.row.id && Owns(p.phase) && st.orders[id].orderURL == "")))
  }

  predicate Widens(reported: map<nat, set<Status>>, reported': map<nat, set<Status>>) {
    forall id :: id in reported ==> id in reported' && reported[id] <= reported'[id]
  }

  lemma NoteWidens(reported: map<nat, set<Status>>, p: Proc, e: Event)
    ensures Widens(reported, Note(reported, p, e))
  {
  }

  /** What the call writes back keeps its identity and carries a known status. */
  lemma WrittenRow(st: Store, reported: map<nat, set<Status>>, p: Proc, e: Event)
    requires ProcOk(st, reported, p) && Answers(p, e) && e.RowWritten?
    ensures Holds(p.phase) && e.row.id == p.row.id && e.row.hostnames == p.row.hostnames
    ensures e.row.challenge == p.row.challenge && e.row.orderURL == p.row.orderURL
    ensures StatusOk(reported, e.row.id, e.row.status)
  {
  }

  lemma WriteKeeps(st: Store, reported: map<nat, set<Status>>, p: Proc, row: OrderRow)
    requires StoreOk(st, reported) && ProcOk(st, reported, p) && Holds(p.phase) && row.id == p.row.id
    requires row.hostnames == p.row.hostnames && row.challenge == p.row.challenge && row.orderURL == p.row.orderURL
    requires StatusOk(reported, row.id, row.status)
    ensures var st' := st.(orders := st.orders[row.id := row]); StoreOk(st', reported) && Extends(st, st', p)
  {
  }

  lemma InsertKeeps(st: Store, reported: map<nat, set<Status>>, p: Proc, row: OrderRow)
    requires StoreOk(st, reported) && ProcOk(st, reported, p) && p.phase.Inserting?
    requires row == p.row.(id := row.id) && row.id > 0 && row.id >= st.nextId
    ensures var st' := st.(orders := st.orders[row.id := row], nextId := row.id + 1);
            StoreOk(st', reported) && Extends(st, st', p)
  {
  }

  lemma SaveKeeps(st: Store, reported: map<nat, set<Status>>, p: Proc, cert: Cert)
    requires StoreOk(st, reported) && ProcOk(st, reported, p) && p.phase == Saving(cert)
    ensures var st' := st.(certs := st.certs[cert.hostname := cert]); StoreOk(st', reported) && Extends(st, st', p)
  {
  }

  lemma StoreStep(st: Store, reported: map<nat, set<Status>>, p: Proc, e: Event)
    requires StoreOk(st, reported) && ProcOk(st, reported, p) && Answers(p, e) && Enabled(st, e)
    ensures StoreOk(Persist(st, e), reported)
    ensures Extends(st, Persist(st, e), p)
  {
    match e
    case RowInserted(row) => InsertKeeps(st, reported, p, row);
    case InsertFailed(row, applied) =>
      if applied {
        InsertKeeps(st, reported, p, row);
      }
    case RowWritten(row, applied, ok) =>
      WrittenRow(st, reported, p, e);
      WriteKeeps(st, reported, p, row);
    case CertWritten(cert, applied, ok) => SaveKeeps(st, reported, p, cert);
    case _ =>
  }

  lemma HostsStep(p: Proc, e: Event)
    requires HostsOk(p) && Answers(p, e)
    ensures HostsOk(After(p, e))
  {
  }

  lemma SavingStep(p: Proc, e: Event)
    requires SavingOk(p) && Answers(p, e)
    ensures SavingOk(After(p, e))
  {
  }

  lemma AuthzStep(p: Proc, e: Event)
    requires AuthzOk(p) && Answers(p, e)
    ensures AuthzOk(After(p, e))
  {
  }

  /** Once a call has stopped holding its row it never holds one again. */
  lemma HoldsOn(p: Proc, e: Event)
    requires Answers(p, e) && Holds(NextPhase(p, e))
    ensures Holds(p.phase) || e.RowInserted?
    ensures Owns(p.phase) ==> Owns(NextPhase(p, e)) || e.PostFailed? || e.RowWritten?
    ensures Owns(NextPhase(p, e)) ==> Owns(p.phase) || e.RowInserted?
    ensures e.RowWritten? && Owns(p.phase) ==> e.applied && e.row == p.row
    ensures e.PostFailed? && Owns(p.phase) ==> p.phase.Ordering?
  {
  }

  /** A call's own state stays in step with the store through its events. */
  lemma OwnStep(st: Store, reported: map<nat, set<Status>>, p: Proc, e: Event)
    requires ProcOk(st, reported, p) && Answers(p, e) && Enabled(st, e)
    ensures ProcOk(Persist(st, e), Note(reported, p, e), After(p, e))
  {
    HostsStep(p, e);
    SavingStep(p, e);
    AuthzStep(p, e);
    if Holds(NextPhase(p, e)) {
      HoldsOn(p, e);
      if e.RowWritten? {
        WrittenRow(st, reported, p, e);
      }
    }
  }

  lemma OtherStep(st: Store, st': Store, reported: map<nat, set<Status>>, reported': map<nat, set<Status>>, p: Proc,
                  q: Proc)
    requires ProcOk(st, reported, q) && Extends(st, st', p) && Widens(reported, reported')
    requires Owns(p.phase) && Holds(q.phase) ==> p.row.id != q.row.id
    ensures ProcOk(st', reported', q)
  {
  }

  lemma OwnersStep(s: Sys, pid: nat, e: Event)
    requires SysInv(s) && CanAct(s, Advance(pid, e))
    ensures OwnersAlone(Do(s, Advance(pid, e)).procs)
  {
    hide Answers, NextPhase, NextRow, NextSubject, NextAuthzs, NextTeardowns, Persist, Note, HostsOk, SavingOk, AuthzOk;
    var p := s.procs[pid];
    var procs' := s.procs[pid := After(p, e)];
    forall a, b | a in procs' && b in procs' && a != b && Owns(procs'[a].phase) && Holds(procs'[b].phase)
      ensures procs'[a].row.id != procs'[b].row.id
    {
      if Holds(NextPhase(p, e)) {
        HoldsOn(p, e);
        SameRow(p, e);
      }
    }
  }

  lemma SameRow(p: Proc, e: Event)
    requires Answers(p, e)
    ensures NextRow(p, e).id == if e.RowInserted? then e.row.id else p.row.id
  {
  }

  lemma AdvanceKeeps(s: Sys, pid: nat, e: Event)
    requires SysInv(s) && CanAct(s, Advance(pid, e))
    ensures SysInv(Do(s, Advance(pid, e)))
  {
    hide Answers, Enabled, NextPhase, NextRow, NextSubject, NextAuthzs, NextTeardowns;
    hide Persist, Note, HostsOk, SavingOk, AuthzOk, StoreOk, ProcOk, AllListedOk;
    var s' := Do(s, Advance(pid, e));
    var p := s.procs[pid];
    StoreStep(s.store, s.reported, p, e);
    NoteWidens(s.reported, p, e);
    StoreWidens(s'.store, s.reported, s'.reported);
    OwnersStep(s, pid, e);
    ListedStep(s.store, s'.store, s.reported, s'.reported, p, s.listed);
    forall b | b in s'.procs ensures ProcOk(s'.store, s'.reported, s'.procs[b]) {
      if b == pid {
        OwnStep(s.store, s.reported, p, e);
      } else {
        OtherStep(s.store, s'.store, s.reported, s'.reported, p, s.procs[b]);
      }
    }
  }

  lemma ListedStep(st: Store, st': Store, reported: map<nat, set<Status>>, reported': map<nat, set<Status>>, p: Proc,
                   rows: multiset<OrderRow>)
    requires AllListedOk(st, reported, rows) && Extends(st, st', p) && Widens(reported, reported')
    ensures AllListedOk(st', reported', rows)
  {
  }

  lemma StoreWidens(st: Store, reported: map<nat, set<Status>>, reported': map<nat, set<Status>>)
    requires StoreOk(st, reported) && Widens(reported, reported')
    ensures StoreOk(st, reported')
  {
  }

  /** A new call writes nothing yet. */
  lemma NewCallKeeps(s: Sys, pid: nat, p: Proc)
    requires SysInv(s) && pid !in s.procs && ProcOk(s.store, s.reported, p) && !Owns(p.phase)
    requires forall a :: a in s.procs && Owns(s.procs[a].phase) && Holds(p.phase) ==> s.procs[a].row.id != p.row.id
    ensures SysInv(s.(procs := s.procs[pid := p]))
  {
    hide StoreOk, ProcOk, AllListedOk;
  }

  lemma CallOrderKeeps(s: Sys, a: Act)
    requires SysInv(s) && CanAct(s, a) && a.CallOrder?
    ensures SysInv(Do(s, a))
  {
    LowerTwice(a.hostnames[0]);
    NewCallKeeps(s, a.pid, StartOrder(a.hostnames, a.challenge, a.env));
  }

  /** A stale copy with an order URL is not that of a row whose order is being placed. */
  lemma ResumedOk(s: Sys, row: OrderRow, env: Env)
    requires SysInv(s) && row in s.listed
    ensures var p := StartResume(row, env);
            && ProcOk(s.store, s.reported, p) && !Owns(p.phase)
            && (forall a :: a in s.procs && Owns(s.procs[a].phase) && Holds(p.phase) ==> s.procs[a].row.id != row.id)
  {
    hide StoreOk, OwnersAlone, SavingOk, AuthzOk;
    var p := StartResume(row, env);
    assert ListedOk(s.store, s.reported, row);
    StartsSaving(row, env);
    forall a | a in s.procs && Owns(s.procs[a].phase) && Holds(p.phase) ensures s.procs[a].row.id != row.id {
      assert Agrees(s.store, s.reported, s.procs[a]);
    }
  }

  lemma StartsSaving(row: OrderRow, env: Env)
    ensures SavingOk(StartResume(row, env)) && AuthzOk(StartResume(row, env))
  {
  }

  lemma FewerListed(s: Sys, rows: multiset<OrderRow>)
    requires SysInv(s) && rows <= s.listed
    ensures SysInv(s.(listed := rows))
  {
    hide StoreOk, ProcOk, ListedOk, OwnersAlone;
  }

  lemma CallResumeKeeps(s: Sys, a: Act)
    requires SysInv(s) && CanAct(s, a) && a.CallResume?
    ensures SysInv(Do(s, a))
  {
    hide SysInv;
    ResumedOk(s, a.row, a.env);
    NewCallKeeps(s, a.pid, StartResume(a.row, a.env));
    FewerListed(s.(procs := s.procs[a.pid := StartResume(a.row, a.env)]), s.listed - multiset{a.row});
  }

  lemma ListKeeps(s: Sys, a: Act)
    requires SysInv(s) && CanAct(s, a) && a.List?
    ensures SysInv(Do(s, a))
  {
    hide ProcOk, OwnersAlone, CertOk;
    forall row | row in Do(s, a).listed ensures ListedOk(s.store, s.reported, row) {
      assert row in s.listed || row in Bucket(s.store, a.status);
    }
  }

  lemma CrashKeeps(s: Sys, a: Act)
    requires SysInv(s) && CanAct(s, a) && a.Crash?
    ensures SysInv(Do(s, a))
  {
    hide StoreOk, ProcOk, AllListedOk;
    FewerListed(s, s.listed - a.rows);
  }

  /** Every act keeps the invariant: any call, any listing, any event of any call, any
      crash. */
  lemma ActKeeps(s: Sys, a: Act)
    requires SysInv(s) && CanAct(s, a)
    ensures SysInv(Do(s, a))
  {
    hide SysInv, CanAct, Do;
    match a
    case Advance(pid, e) => AdvanceKeeps(s, pid, e);
    case CallOrder(_, _, _, _) => CallOrderKeeps(s, a);
    case List(_) => ListKeeps(s, a);
    case CallResume(_, _, _) => CallResumeKeeps(s, a);
    case Crash(_, _) => CrashKeeps(s, a);
  }

  // -- Whole behaviours -----------------------------------------------------

  /** Nothing runs and no order has been placed; imported certificates may exist. */
  predicate Initial(s: Sys) {
    s.procs == map[] && s.listed == multiset{} && s.store.orders == map[] && StoreOk(s.store, s.reported)
  }

  lemma {:induction false} InvHolds(ss: seq<Sys>, acts: seq<Act>, i: nat)
    requires Behaves(ss, acts) && SysInv(ss[0]) && i < |ss|
    ensures SysInv(ss[i])
  {
    if i > 0 {
      InvHolds(ss, acts, i - 1);
      ActKeeps(ss[i - 1], acts[i - 1]);
    }
  }

  /** In every reachable state, each certificate obtained through an order names the
      row whose first host is its own; and each row's status is pending, invalid, or
      one that the server reported for that order. */
  lemma StoreIsConsistent(ss: seq<Sys>, acts: seq<Act>, i: nat)
    requires Behaves(ss, acts) && Initial(ss[0]) && i < |ss|
    ensures forall h :: h in ss[i].store.certs && ss[i].store.certs[h].orderID != 0 ==>
              var id := ss[i].store.certs[h].orderID;
              id in ss[i].store.orders && ss[i].store.orders[id].hostnames != []
              && ss[i].store.orders[id].hostnames[0] == h
    ensures forall id :: id in ss[i].store.orders ==>
              var status := ss[i].store.orders[id].status;
              status == Pending || status == Invalid
              || (id in ss[i].reported && status in ss[i].reported[id])
  {
    InvHolds(ss, acts, i);
  }

  lemma RowKept(s: Sys, a: Act, id: nat)
    requires SysInv(s) && CanAct(s, a) && id in s.store.orders
    ensures id in Do(s, a).store.orders
    ensures Do(s, a).store.orders[id].hostnames == s.store.orders[id].hostnames
    ensures s.store.orders[id].orderURL != "" ==>
              Do(s, a).store.orders[id].orderURL == s.store.orders[id].orderURL
  {
    hide Answers, NextPhase, NextRow, NextSubject, NextAuthzs, NextTeardowns, Note, HostsOk, SavingOk, AuthzOk;
    if a.Advance? {
      StoreStep(s.store, s.reported, s.procs[a.pid], a.event);
    }
  }

  /** A row is never removed, its hosts never change, and its order URL is set at
      most once, across crashes and resumptions. */
  lemma {:induction false} UrlSetOnce(ss: seq<Sys>, acts: seq<Act>, i: nat, j: nat, id: nat)
    requires Behaves(ss, acts) && SysInv(ss[0]) && i <= j < |ss| && id in ss[i].store.orders
    ensures id in ss[j].store.orders
    ensures ss[j].store.orders[id].hostnames == ss[i].store.orders[id].hostnames
    ensures ss[i].store.orders[id].orderURL != "" ==>
              ss[j].store.orders[id].orderURL == ss[i].store.orders[id].orderURL
    decreases j
  {
    if i < j {
      UrlSetOnce(ss, acts, i, j - 1, id);
      InvHolds(ss, acts, j - 1);
      RowKept(ss[j - 1], acts[j - 1], id);
    }
  }

  /** No call in progress still holds the row. */
  predicate Unheld(s: Sys, id: nat) {
    forall pid :: pid in s.procs && Holds(s.procs[pid].phase) ==> s.procs[pid].row.id != id
  }

  /** No copy of the row that resumeOrder would take up waits to be passed to it. */
  predicate Unlisted(s: Sys, id: nat) {
    forall row :: row in s.listed && row.orderURL != "" ==> row.id != id
  }

  /** All the call will still write is the row as it is. */
  predicate Rewrites(p: Proc, row: OrderRow) {
    (p.phase.Saving? || p.phase.PersistSaved?) && p.row == row
  }

  /** The row is finished, or its order URL was never recorded; no call will change it;
      and no listed copy of it waits to be resumed. */
  predicate Settled(s: Sys, id: nat) {
    && id in s.store.orders
    && (!InFlight(s.store.orders[id].status) || s.store.orders[id].orderURL == "")
    && (forall pid :: pid in s.procs && Holds(s.procs[pid].phase) && s.procs[pid].row.id == id ==>
          Rewrites(s.procs[pid], s.store.orders[id]))
    && Unlisted(s, id)
  }

  /** All that a call about to save may still be told. */
  lemma LastAnswers(p: Proc, e: Event)
    requires Answers(p, e) && (p.phase.Saving? || p.phase.PersistSaved?)
    ensures p.phase.Saving? ==> e.CertWritten? || e.KeyRejected?
    ensures p.phase.PersistSaved? ==> e.RowWritten? && e.row == p.row.(status := Valid)
  {
  }

  /** A call that has saved the certificate writes its row once more, as it is. */
  lemma RewritesOn(st: Store, p: Proc, e: Event)
    requires Answers(p, e) && SavingOk(p) && p.row.id in st.orders && Rewrites(p, st.orders[p.row.id])
    ensures p.row.id in Persist(st, e).orders && Persist(st, e).orders[p.row.id] == st.orders[p.row.id]
    ensures Holds(NextPhase(p, e)) ==> Rewrites(After(p, e), st.orders[p.row.id])
  {
    hide Answers;
    LastAnswers(p, e);
  }

  /** The row through a step of one call: it stays as it is, and so does what that call
      will write of it. */
  lemma SettledOne(s: Sys, a: Act, id: nat)
    requires SysInv(s) && CanAct(s, a) && Settled(s, id) && a.Advance?
    ensures id in Do(s, a).store.orders && Do(s, a).store.orders[id] == s.store.orders[id]
    ensures var q := Do(s, a).procs[a.pid]; Holds(q.phase) && q.row.id == id ==> Rewrites(q, s.store.orders[id])
  {
    hide Answers, NextPhase, NextRow, NextSubject, NextAuthzs, NextTeardowns, Persist, Note, HostsOk, SavingOk, AuthzOk;
    hide AllListedOk, OwnersAlone, Rewrites;
    var p, e := s.procs[a.pid], a.event;
    if Holds(p.phase) && p.row.id == id {
      RewritesOn(s.store, p, e);
    } else {
      StoreStep(s.store, s.reported, p, e);
      if Holds(NextPhase(p, e)) {
        HoldsOn(p, e);
        SameRow(p, e);
      }
    }
  }

  lemma SettledAdvance(s: Sys, a: Act, id: nat)
    requires SysInv(s) && CanAct(s, a) && Settled(s, id) && a.Advance?
    ensures Settled(Do(s, a), id) && Do(s, a).store.orders[id] == s.store.orders[id]
  {
    hide Answers, After, Persist, Note, SysInv, Rewrites;
    SettledOne(s, a, id);
  }

  lemma SettledResume(s: Sys, a: Act, id: nat)
    requires SysInv(s) && CanAct(s, a) && Settled(s, id) && a.CallResume?
    ensures Settled(Do(s, a), id) && Do(s, a).store.orders[id] == s.store.orders[id]
  {
    hide SysInv;
  }

  lemma SettledList(s: Sys, a: Act, id: nat)
    requires SysInv(s) && CanAct(s, a) && Settled(s, id) && a.List?
    ensures Settled(Do(s, a), id) && Do(s, a).store.orders[id] == s.store.orders[id]
  {
    hide ProcOk, OwnersAlone, CertOk, AllListedOk, RowOk;
    forall row | row in Do(s, a).listed && row.orderURL != "" ensures row.id != id {
      assert row in s.listed || row in Bucket(s.store, a.status);
    }
  }

  lemma SettledKept(s: Sys, a: Act, id: nat)
    requires SysInv(s) && CanAct(s, a) && Settled(s, id)
    ensures Settled(Do(s, a), id) && Do(s, a).store.orders[id] == s.store.orders[id]
  {
    hide SysInv;
    match a
    case Advance(_, _) => SettledAdvance(s, a, id);
    case CallResume(_, _, _) => SettledResume(s, a, id);
    case List(_) => SettledList(s, a, id);
    case CallOrder(_, _, _, _) =>
    case Crash(_, _) =>
  }

  /** A row left valid or invalid (or with a status the client does not know) is
      never changed again, by resume or by anything else, once no call is left that would
      write it otherwise and no copy of it waits to be resumed. */
  lemma {:induction false} SettledForever(ss: seq<Sys>, acts: seq<Act>, i: nat, j: nat, id: nat)
    requires Behaves(ss, acts) && SysInv(ss[0]) && i <= j < |ss| && Settled(ss[i], id)
    ensures Settled(ss[j], id) && ss[j].store.orders[id] == ss[i].store.orders[id]
    decreases j
  {
    hide SysInv, CanAct, Do, Settled;
    if i < j {
      SettledForever(ss, acts, i, j - 1, id);
      InvHolds(ss, acts, j - 1);
      SettledKept(ss[j - 1], acts[j - 1], id);
    }
  }

  /** A row whose order URL was not recorded, and that no call holds, has no listed copy
      with a URL. */
  lemma NoUrlSettled(s: Sys, id: nat)
    requires SysInv(s) && id in s.store.orders && s.store.orders[id].orderURL == "" && Unheld(s, id)
    ensures Settled(s, id)
  {
    hide StoreOk, ProcOk, OwnersAlone;
  }

  /** So it stays as it is: resuming never advances it. */
  lemma StuckWithoutUrl(ss: seq<Sys>, acts: seq<Act>, i: nat, j: nat, id: nat)
    requires Behaves(ss, acts) && SysInv(ss[0]) && i <= j < |ss|
    requires id in ss[i].store.orders && ss[i].store.orders[id].orderURL == "" && Unheld(ss[i], id)
    ensures id in ss[j].store.orders && ss[j].store.orders[id] == ss[i].store.orders[id]
  {
    hide SysInv, CanAct, Do;
    InvHolds(ss, acts, i);
    NoUrlSettled(ss[i], id);
    SettledForever(ss, acts, i, j, id);
  }
}
