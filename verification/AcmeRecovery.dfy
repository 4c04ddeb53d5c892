/** What the store of internal/acme recovers from, and what it does not: stale writes,
    and orders lost in a crash. */
module AcmeRecovery {
  import opened AcmeTypes
  import opened Options
  import opened Base64Url
  import opened AcmeMachine
  import opened AcmeSystem
  import opened AcmeResume
  import opened AcmeRuns

  // -- Reaching a state -----------------------------------------------------

  predicate IsPath(ss: seq<Sys>, acts: seq<Act>, s: Sys, s': Sys) {
    Behaves(ss, acts) && ss[0] == s && ss[|acts|] == s'
  }

  ghost predicate Reaches(s: Sys, s': Sys) {
    exists ss, acts :: IsPath(ss, acts, s, s')
  }

  lemma Stays(s: Sys)
    ensures Reaches(s, s)
  {
    assert IsPath([s], [], s, s);
  }

  /** One act more. */
  lemma Then(s0: Sys, s: Sys, a: Act)
    requires Reaches(s0, s) && CanAct(s, a)
    ensures Reaches(s0, Do(s, a))
  {
    hide CanAct, Do;
    var ss, acts :| IsPath(ss, acts, s0, s);
    assert IsPath(ss + [Do(s, a)], acts + [a], s0, Do(s, a));
  }

  lemma ReachedSound(s: Sys, s': Sys)
    requires SysInv(s) && Reaches(s, s')
    ensures SysInv(s')
  {
    hide SysInv, CanAct, Do;
    var ss, acts :| IsPath(ss, acts, s, s');
    InvHolds(ss, acts, |acts|);
  }

  /** One call takes one step. */
  lemma Move(s0: Sys, s: Sys, pid: nat, e: Event, q: Proc) returns (s': Sys)
    requires Reaches(s0, s) && pid in s.procs
    requires Answers(s.procs[pid], e) && Enabled(s.store, e) && After(s.procs[pid], e) == q
    ensures Reaches(s0, s') && s'.store == Persist(s.store, e)
    ensures s'.procs == s.procs[pid := q] && s'.listed == s.listed
  {
    hide Answers, Enabled, After, Persist, Note, Reaches;
    Then(s0, s, Advance(pid, e));
    s' := Do(s, Advance(pid, e));
  }

  /** What a call finds around it: the other rows, calls and listings. */
  datatype Around = Around(orders: map<nat, OrderRow>, procs: map<nat, Proc>, listed: multiset<OrderRow>)

  /** A call stands at a phase, and the row it works on is stored as given. */
  predicate At(s: Sys, pid: nat, p: Proc, row: OrderRow, around: Around) {
    && pid in s.procs && s.procs[pid] == p && s.procs == around.procs[pid := p]
    && row.id in s.store.orders && s.store.orders == around.orders[row.id := row]
    && s.listed == around.listed
  }

  /** A step that leaves the row alone; */
  lemma Pass(s0: Sys, s: Sys, pid: nat, p: Proc, row: OrderRow, around: Around, e: Event, q: Proc) returns (s': Sys)
    requires Reaches(s0, s) && At(s, pid, p, row, around)
    requires Answers(p, e) && After(p, e) == q && !e.RowInserted? && !e.InsertFailed? && !e.RowWritten?
    ensures Reaches(s0, s') && At(s', pid, q, row, around)
    ensures s'.store.certs ==
              if e.CertWritten? && e.applied then s.store.certs[e.cert.hostname := e.cert] else s.store.certs
  {
    hide Answers, After, Reaches;
    s' := Move(s0, s, pid, e, q);
    assert around.procs[pid := p][pid := q] == around.procs[pid := q];
  }

  /** and one that writes it. */
  lemma Write(s0: Sys, s: Sys, pid: nat, p: Proc, row: OrderRow, around: Around, row': OrderRow, q: Proc)
    returns (s': Sys)
    requires Reaches(s0, s) && At(s, pid, p, row, around) && row'.id == row.id
    requires Answers(p, RowWritten(row', true, true)) && After(p, RowWritten(row', true, true)) == q
    ensures Reaches(s0, s') && At(s', pid, q, row', around) && s'.store.certs == s.store.certs
  {
    hide Answers, After, Reaches;
    s' := Move(s0, s, pid, RowWritten(row', true, true), q);
    assert around.procs[pid := p][pid := q] == around.procs[pid := q];
    assert around.orders[row.id := row][row.id := row'] == around.orders[row.id := row'];
  }

  // -- A resume that finishes, and one that spoils --------------------------

  lemma ResumedGoesOn(row: OrderRow, status: Status, env: Env)
    requires status != Pending
    ensures After(Resumed(row, status, env), RowWritten(row.(status := status), true, true)) ==
              Resumed(row, status, env).(phase := MakingKey)
  {
  }

  /** The copy given to a resume is written back with the status fetched. */
  lemma ToKey(s0: Sys, s: Sys, pid: nat, row: OrderRow, stored: OrderRow, status: Status, env: Env, around: Around)
    returns (s': Sys)
    requires Reaches(s0, s) && At(s, pid, StartResume(row, env), stored, around) && stored.id == row.id
    requires row.orderURL != "" && status != Pending
    ensures Reaches(s0, s') && s'.store.certs == s.store.certs
    ensures At(s', pid, Resumed(row, status, env).(phase := MakingKey), row.(status := status), around)
  {
    hide Answers, After, Reaches, StartResume, At;
    ResumedSteps(row, status, env);
    ResumedGoesOn(row, status, env);
    var p := Resumed(row, status, env);
    s' := Pass(s0, s, pid, StartResume(row, env), stored, around, Report(row, status), p);
    s' := Write(s0, s', pid, p, stored, around, row.(status := status), p.(phase := MakingKey));
  }

  lemma ToDownloading(s0: Sys, s: Sys, pid: nat, p: Proc, row: OrderRow, around: Around, key: Key, der: seq<byte>,
                      url: string) returns (s': Sys)
    requires Reaches(s0, s) && At(s, pid, p, row, around) && p.row == row
    requires p.phase == MakingKey && row.status == Ready && url != ""
    ensures Reaches(s0, s') && s'.store.certs == s.store.certs
    ensures var row' := row.(status := Valid, certificateURL := url);
            At(s', pid, p.(phase := Downloading, subject := Some(SubjectKey(key, der)), row := row'), row', around)
  {
    hide Answers, After, Reaches, At, Encoded;
    FinalizeSteps(p, key, der, url);
    var p1 := p.(phase := Finalizing(Encoded(der)), subject := Some(SubjectKey(key, der)));
    var p2 := p1.(phase := PersistFinalized, row := row.(status := Valid, certificateURL := url));
    var e2 := OrderReported(Finalize(row.finalizeURL, Encoded(der)), OrderDoc(Valid, [], "", url), "");
    s' := Pass(s0, s, pid, p, row, around, KeyBuilt(key, der), p1);
    s' := Pass(s0, s', pid, p1, row, around, e2, p2);
    s' := Write(s0, s', pid, p2, row, around, p2.row, p2.(phase := Downloading));
  }

  lemma EndSteps(p: Proc, cert: Cert)
    requires p.phase == Saving(cert) && p.row.status == Valid && p.teardowns == []
    ensures var p1 := p.(phase := PersistSaved(cert));
            && After(p, CertWritten(cert, true, true)) == p1
            && Answers(p1, RowWritten(p.row, true, true))
            && After(p1, RowWritten(p.row, true, true)) == p.(phase := Done(Issued(cert)))
  {
  }

  lemma ToIssued(s0: Sys, s: Sys, pid: nat, p: Proc, row: OrderRow, around: Around, cert: Cert) returns (s': Sys)
    requires Reaches(s0, s) && At(s, pid, p, row, around) && p.row == row && row.status == Valid
    requires p.phase == Downloading && p.subject.Some? && p.hostnames != [] && p.teardowns == []
    requires cert == Cert(Lower(p.hostnames[0]), cert.chain, p.subject.value.key, cert.notAfter, row.id)
    ensures Reaches(s0, s') && At(s', pid, p.(phase := Done(Issued(cert))), row, around)
    ensures s'.store.certs == s.store.certs[cert.hostname := cert]
  {
    hide Answers, After, Reaches, At, Lower;
    SaveSteps(p, cert.chain, cert);
    var p1, p2 := p.(phase := Parsing(cert.chain)), p.(phase := Saving(cert));
    EndSteps(p2, cert);
    s' := Pass(s0, s, pid, p, row, around, ChainDownloaded(row.certificateURL, cert.chain), p1);
    s' := Pass(s0, s', pid, p1, row, around, LeafParsed(cert.notAfter), p2);
    s' := Pass(s0, s', pid, p2, row, around, CertWritten(cert, true, true), p.(phase := PersistSaved(cert)));
    s' := Write(s0, s', pid, p.(phase := PersistSaved(cert)), row, around, row, p.(phase := Done(Issued(cert))));
  }

  /** The row as a resume that finishes leaves it. */
  function Finished(row: OrderRow): OrderRow {
    row.(status := Valid, certificateURL := "certificate")
  }

  /** A resume that goes well: the order is ready, is finalized, and its certificate saved. */
  lemma ResumeFinishes(s0: Sys, s: Sys, pid: nat, row: OrderRow, env: Env, around: Around) returns (s': Sys, p: Proc)
    requires Reaches(s0, s) && At(s, pid, StartResume(row, env), row, around)
    requires row.orderURL != "" && row.hostnames != []
    ensures Reaches(s0, s') && At(s', pid, p, Finished(row), around) && p.phase.Done?
    ensures var h := Lower(row.hostnames[0]); h in s'.store.certs && s'.store.certs[h].orderID == row.id
  {
    hide Reaches, At, Lower, StartResume;
    s' := ToKey(s0, s, pid, row, row, Ready, env, around);
    p := Resumed(row, Ready, env).(phase := MakingKey);
    s' := ToDownloading(s0, s', pid, p, p.row, around, 0, [], "certificate");
    p := p.(phase := Downloading, subject := Some(SubjectKey(0, [])), row := Finished(row));
    var cert := Cert(Lower(row.hostnames[0]), "", 0, 0, row.id);
    s' := ToIssued(s0, s', pid, p, Finished(row), around, cert);
    p := p.(phase := Done(Issued(cert)));
  }

  lemma SpoilSteps(p: Proc, row: OrderRow)
    requires p.phase == MakingKey && p.row == row && row.status == Valid && row.certificateURL == ""
             && p.teardowns == []
    ensures var p1 := p.(phase := Marking, subject := Some(SubjectKey(0, [])));
            && Answers(p, KeyBuilt(0, [])) && After(p, KeyBuilt(0, [])) == p1
            && Answers(p1, RowWritten(row.(status := Invalid), true, true))
            && After(p1, RowWritten(row.(status := Invalid), true, true)) == p1.(phase := Done(Failed))
  {
  }

  /** A resume from a copy without certificate URL, of an order that is valid by then: the
      row is marked invalid, whatever it was before. */
  lemma ResumeSpoils(s0: Sys, s: Sys, pid: nat, row: OrderRow, stored: OrderRow, env: Env, around: Around)
    returns (s': Sys, p: Proc)
    requires Reaches(s0, s) && At(s, pid, StartResume(row, env), stored, around) && stored.id == row.id
    requires row.orderURL != "" && row.certificateURL == ""
    ensures Reaches(s0, s') && At(s', pid, p, row.(status := Invalid), around) && p.phase.Done?
  {
    hide Reaches, At, StartResume, Answers, After;
    s' := ToKey(s0, s, pid, row, stored, Valid, env, around);
    p := Resumed(row, Valid, env).(phase := MakingKey);
    SpoilSteps(p, p.row);
    var p1 := p.(phase := Marking, subject := Some(SubjectKey(0, [])));
    s' := Pass(s0, s', pid, p, p.row, around, KeyBuilt(0, []), p1);
    s' := Write(s0, s', pid, p1, p.row, around, row.(status := Invalid), p1.(phase := Done(Failed)));
    p := p1.(phase := Done(Failed));
  }

  // -- Rows listed before they were finished --------------------------------

  /** A stored row in flight is listed, and a copy of it passed to resumeOrder. */
  lemma Lists(s0: Sys, s: Sys, row: OrderRow) returns (s': Sys)
    requires Reaches(s0, s) && row.id in s.store.orders && s.store.orders[row.id] == row && InFlight(row.status)
    ensures Reaches(s0, s') && s' == s.(listed := s'.listed)
    ensures s'.listed == s.listed + multiset(Bucket(s.store, row.status)) && s'.listed[row] == s.listed[row] + 1
  {
    hide Reaches;
    Then(s0, s, List(row.status));
    s' := Do(s, List(row.status));
    assert row in Bucket(s.store, row.status);
  }

  lemma Resumes(s0: Sys, s: Sys, pid: nat, row: OrderRow, stored: OrderRow, env: Env) returns (s': Sys, around: Around)
    requires Reaches(s0, s) && pid !in s.procs && row in s.listed
    requires stored.id == row.id && row.id in s.store.orders && s.store.orders[row.id] == stored
    ensures Reaches(s0, s') && At(s', pid, StartResume(row, env), stored, around) && s'.store == s.store
    ensures around == Around(s.store.orders, s.procs, s.listed - multiset{row})
  {
    hide Reaches, StartResume;
    Then(s0, s, CallResume(pid, row, env));
    s' := Do(s, CallResume(pid, row, env));
    around := Around(s.store.orders, s.procs, s.listed - multiset{row});
    assert s.store.orders == s.store.orders[row.id := stored];
  }

  lemma TwiceListed(s: Sys, row: OrderRow) returns (s': Sys)
    requires row.id in s.store.orders && s.store.orders[row.id] == row && InFlight(row.status)
    ensures Reaches(s, s') && s' == s.(listed := s'.listed) && s'.listed[row] == s.listed[row] + 2
    ensures s'.listed == s.listed + multiset(Bucket(s.store, row.status)) + multiset(Bucket(s.store, row.status))
  {
    hide Reaches, InFlight, Bucket;
    Stays(s);
    s' := Lists(s, s, row);
    s' := Lists(s, s', row);
  }

  lemma FinishedWhileListed(s: Sys, row: OrderRow, env: Env) returns (s': Sys)
    requires SysInv(s) && s.procs == map[] && row.id in s.store.orders && s.store.orders[row.id] == row
    requires InFlight(row.status) && row.orderURL != "" && row.certificateURL == ""
    ensures Reaches(s, s') && Unheld(s', row.id) && 1 !in s'.procs && row in s'.listed
    ensures row.id in s'.store.orders && s'.store.orders[row.id] == Finished(row)
  {
    HostsKnown(s, row.id);
    hide Reaches, StartResume, SysInv, Lower, InFlight, Bucket;
    s' := TwiceListed(s, row);
    var around, p;
    s', around := Resumes(s, s', 0, row, row, env);
    s', p := ResumeFinishes(s, s', 0, row, env, around);
  }

  /** A loop has listed a row when another finishes it, with its certificate URL. No call
      holds the row then; but when the first loop comes to its copy, it writes the row
      without the URL and marks it invalid. It takes two renewal loops or two processes on
      one store. */
  lemma StaleListingOverwrites(s: Sys, row: OrderRow, env: Env) returns (s1: Sys, s2: Sys)
    requires SysInv(s) && s.procs == map[] && row.id in s.store.orders && s.store.orders[row.id] == row
    requires InFlight(row.status) && row.orderURL != "" && row.certificateURL == ""
    ensures Reaches(s, s1) && Unheld(s1, row.id)
    ensures row.id in s1.store.orders && s1.store.orders[row.id] == Finished(row)
    ensures Reaches(s1, s2)
    ensures row.id in s2.store.orders && s2.store.orders[row.id] == row.(status := Invalid)
  {
    hide Reaches, SysInv, StartResume, InFlight, Bucket;
    s1 := FinishedWhileListed(s, row, env);
    Stays(s1);
    var around, p;
    s2, around := Resumes(s1, s1, 1, row, Finished(row), env);
    s2, p := ResumeSpoils(s1, s2, 1, row, Finished(row), env, around);
  }

  lemma HostsKnown(s: Sys, id: nat)
    requires SysInv(s) && id in s.store.orders
    ensures s.store.orders[id].id == id && s.store.orders[id].hostnames != []
  {
  }

  // -- Two resumes of one order ---------------------------------------------

  /** Two loops have each listed the row and begin to resume it; nothing else of it is
      listed. */
  lemma BothCalled(s: Sys, row: OrderRow, env: Env) returns (s': Sys, first: Around)
    requires SysInv(s) && s.procs == map[] && s.listed == multiset{}
    requires row.id in s.store.orders && s.store.orders[row.id] == row && InFlight(row.status)
    ensures Reaches(s, s') && s'.store == s.store && Unlisted(s', row.id)
    ensures At(s', 0, StartResume(row, env), row, first) && At(s', 1, StartResume(row, env), row, first)
    ensures first.procs == map[0 := StartResume(row, env), 1 := StartResume(row, env)]
  {
    hide Reaches, StartResume, SysInv, InFlight, Bucket;
    s' := TwiceListed(s, row);
    BothTaken(s, s'.listed, row);
    s', first := Resumes(s, s', 0, row, row, env);
    s', first := Resumes(s, s', 1, row, row, env);
    first := Around(s.store.orders, s'.procs, s'.listed);
  }

  lemma BothTaken(s: Sys, listed: multiset<OrderRow>, row: OrderRow)
    requires SysInv(s) && row.id in s.store.orders && s.store.orders[row.id] == row && listed[row] == 2
    requires listed == multiset{} + multiset(Bucket(s.store, row.status)) + multiset(Bucket(s.store, row.status))
    ensures forall other :: other in listed - multiset{row} - multiset{row} ==> other.id != row.id
  {
    BucketById(s, row);
    hide SysInv, Bucket;
    forall other | other in listed - multiset{row} - multiset{row} ensures other.id != row.id {
      assert other in Bucket(s.store, row.status);
      assert (listed - multiset{row} - multiset{row})[row] == 0;
    }
  }

  lemma BucketById(s: Sys, row: OrderRow)
    requires SysInv(s) && row.id in s.store.orders && s.store.orders[row.id] == row
    ensures forall other :: other in Bucket(s.store, row.status) && other.id == row.id ==> other == row
  {
  }

  /** A resume that fetched the order earlier writes its older status over a row that
      another resume has finished: this is why a settled row is one that no call holds.
      Again it takes two renewal loops or two processes. */
  lemma StaleResumeOverwrites(s: Sys, row: OrderRow, env: Env) returns (s1: Sys, s2: Sys)
    requires SysInv(s) && s.procs == map[] && s.listed == multiset{}
    requires row.id in s.store.orders && s.store.orders[row.id] == row && InFlight(row.status) && row.orderURL != ""
    ensures Reaches(s, s1) && Unlisted(s1, row.id)
    ensures row.id in s1.store.orders && s1.store.orders[row.id] == row.(status := Invalid)
    ensures Reaches(s1, s2)
    ensures row.id in s2.store.orders && s2.store.orders[row.id] == row.(status := Processing)
  {
    hide Reaches, StartResume, SysInv, InFlight, Answers, After, Resumed;
    ResumedSteps(row, Processing, env);
    ResumedSteps(row, Invalid, env);
    var around;
    s1, around := BothCalled(s, row, env);
    s1 := Pass(s, s1, 1, StartResume(row, env), row, around, Report(row, Processing), Resumed(row, Processing, env));
    around := around.(procs := s1.procs);
    s1 := Pass(s, s1, 0, StartResume(row, env), row, around, Report(row, Invalid), Resumed(row, Invalid, env));
    around := around.(procs := s1.procs);
    s1 := Write(s, s1, 0, Resumed(row, Invalid, env), row, around, row.(status := Invalid),
                After(Resumed(row, Invalid, env), RowWritten(row.(status := Invalid), true, true)));
    around := around.(procs := s1.procs);
    Stays(s1);
    s2 := Write(s1, s1, 1, Resumed(row, Processing, env), row.(status := Invalid), around, row.(status := Processing),
                After(Resumed(row, Processing, env), RowWritten(row.(status := Processing), true, true)));
  }

  // -- Orders lost in a crash -----------------------------------------------

  lemma InsertSteps(hostnames: seq<string>, ct: ChallengeType, env: Env, id: nat)
    requires id > 0
    ensures var p0 := StartOrder(hostnames, ct, env);
            var p1 := p0.(phase := Inserting);
            && Answers(p0, DirectoryFetched(true)) && After(p0, DirectoryFetched(true)) == p1
            && Answers(p1, RowInserted(p0.row.(id := id)))
            && After(p1, RowInserted(p0.row.(id := id))) == p0.(phase := Ordering, row := p0.row.(id := id))
  {
    hide LowerAll;
  }

  /** A crash after the row was inserted and before its order URL was written leaves a
      pending row that no call holds. */
  lemma CrashLosesOrder(s: Sys, hostnames: seq<string>, ct: ChallengeType, env: Env) returns (s': Sys, id: nat)
    requires SysInv(s) && s.procs == map[] && hostnames != [] && ct != Unset
    ensures Reaches(s, s') && id !in s.store.orders && id in s'.store.orders && Unheld(s', id)
    ensures s'.store.orders[id].status == Pending && s'.store.orders[id].orderURL == ""
    ensures s'.store.orders[id].hostnames == LowerAll(hostnames)
  {
    id := s.store.nextId;
    NextIdNew(s);
    hide Reaches, Answers, After, LowerAll, SysInv;
    InsertSteps(hostnames, ct, env, id);
    var p := StartOrder(hostnames, ct, env);
    Stays(s);
    Then(s, s, CallOrder(0, hostnames, ct, env));
    s' := Do(s, CallOrder(0, hostnames, ct, env));
    s' := Move(s, s', 0, DirectoryFetched(true), p.(phase := Inserting));
    s' := Move(s, s', 0, RowInserted(p.row.(id := id)), p.(phase := Ordering, row := p.row.(id := id)));
    Then(s, s', Crash({0}, multiset{}));
    s' := Do(s', Crash({0}, multiset{}));
  }

  lemma NextIdNew(s: Sys)
    requires SysInv(s)
    ensures s.store.nextId > 0 && s.store.nextId !in s.store.orders
  {
  }

  /** The order was carried through: its row is valid and its host has its certificate. */
  predicate Obtained(st: Store, id: nat) {
    && id in st.orders && st.orders[id].status == Valid && st.orders[id].hostnames != []
    && var h := Lower(st.orders[id].hostnames[0]); h in st.certs && st.certs[h].orderID == id
  }

  lemma Recovers(s: Sys, id: nat) returns (s': Sys)
    requires SysInv(s) && id in s.store.orders && InFlight(s.store.orders[id].status)
             && s.store.orders[id].orderURL != ""
    ensures Reaches(s, s') && Obtained(s'.store, id)
  {
    HostsKnown(s, id);
    hide Reaches, StartResume, SysInv, Lower, InFlight;
    var row := s.store.orders[id];
    Stays(s);
    Then(s, s, Crash(s.procs.Keys, multiset{}));
    s' := Do(s, Crash(s.procs.Keys, multiset{}));
    s' := Lists(s, s', row);
    var around, p;
    s', around := Resumes(s, s', 0, row, row, Env(0, "", ""));
    s', p := ResumeFinishes(s, s', 0, row, Env(0, "", ""), around);
  }

  /** Of the orders in flight that no call holds (after a crash, all of them), exactly those
      whose order URL was recorded can still be carried through: the others stay as they
      are whatever happens. */
  lemma RecoverableIff(s: Sys, id: nat)
    requires SysInv(s) && id in s.store.orders && InFlight(s.store.orders[id].status) && Unheld(s, id)
    ensures s.store.orders[id].orderURL != "" <==> exists s' :: Reaches(s, s') && Obtained(s'.store, id)
  {
    hide SysInv, Obtained;
    if s.store.orders[id].orderURL != "" {
      var s' := Recovers(s, id);
    } else {
      forall s' | Reaches(s, s') ensures !Obtained(s'.store, id) {
        var ss, acts :| IsPath(ss, acts, s, s');
        StuckWithoutUrl(ss, acts, 0, |acts|, id);
        NotObtained(s, s', id);
      }
    }
  }

  lemma NotObtained(s: Sys, s': Sys, id: nat)
    requires id in s.store.orders && InFlight(s.store.orders[id].status)
    requires id in s'.store.orders && s'.store.orders[id] == s.store.orders[id]
    ensures !Obtained(s'.store, id)
  {
  }

  // -- When a row can still change ------------------------------------------

  /** How many steps it takes at least until a call can mark its order invalid. */
  function Distance(ph: Phase): nat {
    match ph
    case Marking => 0
    case Provisioning(_, _, _) | Waiting(_) => 2
    case PersistPlaced | PersistResumed | PersistRefreshed | PersistFinalized | PersistPolled(_) => 3
    case Refetching => 4
    case _ => 1
  }

  /** A call that can still mark its order invalid. */
  predicate CanMark(p: Proc) {
    Holds(p.phase) && !p.phase.Saving? && !p.phase.PersistSaved? && AuthzOk(p)
  }

  /** An answer that brings it nearer to that. */
  function Toward(p: Proc): Event {
    match p.phase
    case Ordering | Authorizing(_) | Acking(_, _) | AuthzPolling(_, _) | Refreshing | Finalizing(_) | Polling(_)
        | Downloading =>
      if Due(p).Post? then PostFailed(Due(p).req) else KeyFailed
    case Refetching => Report(p.row, Ready)
    case Provisioning(_, ch, host) =>
      Provisioned(Teardown(p.row.challenge, ch.token, host), ch.token + "." + p.env.thumb,
                  if p.row.challenge.Http01? then Presented("") else Refused)
    case AuthzWaiting(_, _) => Waited(true)
    case Waiting(_) => Waited(false)
    case Parsing(_) => LeafRejected
    case MakingKey => KeyFailed
    case _ => RowWritten(p.row, true, true)
  }

  lemma TowardNear(p: Proc)
    requires CanMark(p) && Distance(p.phase) == 1
    ensures Answers(p, Toward(p)) && !Toward(p).RowWritten? && !Toward(p).RowInserted? && !Toward(p).InsertFailed?
    ensures After(p, Toward(p)).phase == Marking && After(p, Toward(p)).row.id == p.row.id
  {
  }

  lemma TowardFar(p: Proc)
    requires CanMark(p) && Distance(p.phase) > 1
    ensures Answers(p, Toward(p)) && CanMark(After(p, Toward(p))) && After(p, Toward(p)).row.id == p.row.id
    ensures Distance(After(p, Toward(p)).phase) < Distance(p.phase)
    ensures Toward(p).RowWritten? ==> Toward(p).row.id == p.row.id
    ensures !Toward(p).RowInserted? && !Toward(p).InsertFailed?
  {
  }

  lemma TowardStep(p: Proc)
    requires CanMark(p) && !p.phase.Marking?
    ensures Answers(p, Toward(p)) && CanMark(After(p, Toward(p))) && After(p, Toward(p)).row.id == p.row.id
    ensures Distance(After(p, Toward(p)).phase) < Distance(p.phase)
    ensures Toward(p).RowWritten? ==> Toward(p).row.id == p.row.id
    ensures !Toward(p).RowInserted? && !Toward(p).InsertFailed?
  {
    hide Answers, NextPhase, NextRow, NextAuthzs, NextSubject, NextTeardowns, Toward;
    if Distance(p.phase) == 1 {
      TowardNear(p);
    } else {
      TowardFar(p);
    }
  }

  lemma MarkedStep(p: Proc, error: string)
    requires p.phase.Marking?
    ensures Answers(p, RowWritten(p.row.(status := Invalid, error := error), true, true))
  {
  }

  /** A call that can still mark its order invalid can give its row any error text. */
  lemma {:induction false} Marks(s0: Sys, s: Sys, pid: nat, error: string) returns (s': Sys)
    requires Reaches(s0, s) && pid in s.procs && CanMark(s.procs[pid]) && s.procs[pid].row.id in s.store.orders
    ensures Reaches(s0, s')
    ensures var id := s.procs[pid].row.id; id in s'.store.orders && s'.store.orders[id].error == error
    decreases Distance(s.procs[pid].phase)
  {
    hide Answers, After, Reaches, CanMark, Toward;
    var p := s.procs[pid];
    if p.phase.Marking? {
      MarkedStep(p, error);
      var e := RowWritten(p.row.(status := Invalid, error := error), true, true);
      s' := Move(s0, s, pid, e, After(p, e));
    } else {
      TowardStep(p);
      s' := Move(s0, s, pid, Toward(p), After(p, Toward(p)));
      s' := Marks(s0, s', pid, error);
    }
  }

  lemma LastSteps(p: Proc)
    requires p.phase.Saving? || p.phase.PersistSaved?
    ensures p.phase.Saving? ==>
              var e := CertWritten(p.phase.cert, true, true);
              Answers(p, e) && After(p, e) == p.(phase := PersistSaved(p.phase.cert))
    ensures p.phase.PersistSaved? ==> Answers(p, RowWritten(p.row.(status := Valid), true, true))
  {
  }

  /** A call about to save will write its row. */
  lemma Saves(s0: Sys, s: Sys, pid: nat) returns (s': Sys)
    requires Reaches(s0, s) && pid in s.procs && s.procs[pid].row.id in s.store.orders
    requires s.procs[pid].phase.Saving? || s.procs[pid].phase.PersistSaved?
    ensures var row := s.procs[pid].row;
            Reaches(s0, s') && row.id in s'.store.orders && s'.store.orders[row.id] == row.(status := Valid)
  {
    hide Answers, After, Reaches;
    var p := s.procs[pid];
    s' := s;
    LastSteps(p);
    if p.phase.Saving? {
      p := p.(phase := PersistSaved(p.phase.cert));
      s' := Move(s0, s', pid, CertWritten(s.procs[pid].phase.cert, true, true), p);
      LastSteps(p);
    }
    var e := RowWritten(p.row.(status := Valid), true, true);
    s' := Move(s0, s', pid, e, After(p, e));
  }

  /** The row is there no more as it was. */
  predicate Changed(s: Sys, s': Sys, id: nat)
    requires id in s.store.orders
  {
    id !in s'.store.orders || s'.store.orders[id] != s.store.orders[id]
  }

  lemma HeldChanges(s: Sys, id: nat, pid: nat) returns (s': Sys)
    requires SysInv(s) && id in s.store.orders && pid in s.procs
    requires Holds(s.procs[pid].phase) && s.procs[pid].row.id == id && !Rewrites(s.procs[pid], s.store.orders[id])
    ensures Reaches(s, s') && Changed(s, s', id)
  {
    var p := s.procs[pid];
    assert ProcOk(s.store, s.reported, p);
    hide SysInv, Reaches, HostsOk, AuthzOk, Agrees;
    Stays(s);
    if p.phase.Saving? || p.phase.PersistSaved? {
      s' := Saves(s, s, pid);
    } else {
      s' := Marks(s, s, pid, s.store.orders[id].error + "!");
    }
  }

  lemma ListedChanges(s: Sys, id: nat, row: OrderRow) returns (s': Sys)
    requires SysInv(s) && id in s.store.orders && row in s.listed && row.orderURL != "" && row.id == id
    ensures Reaches(s, s') && Changed(s, s', id)
  {
    HostsKnown(s, id);
    hide Reaches, SysInv, StartResume, Resumed;
    var stored, env := s.store.orders[id], Env(0, "", "");
    Stays(s);
    Then(s, s, Crash(s.procs.Keys, multiset{}));
    s' := Do(s, Crash(s.procs.Keys, multiset{}));
    var around;
    s', around := Resumes(s, s', 0, row, stored, env);
    s' := ToKey(s, s', 0, row, stored, if stored.status == Valid then Ready else Valid, env, around);
  }

  lemma UnsettledChanges(s: Sys, id: nat) returns (s': Sys)
    requires SysInv(s) && id in s.store.orders && !Settled(s, id)
    ensures Reaches(s, s') && Changed(s, s', id)
  {
    hide SysInv, Reaches, Rewrites;
    if InFlight(s.store.orders[id].status) && s.store.orders[id].orderURL != "" {
      s' := Recovers(s, id);
    } else if !Unlisted(s, id) {
      var row :| row in s.listed && row.orderURL != "" && row.id == id;
      s' := ListedChanges(s, id, row);
    } else {
      var pid :| pid in s.procs && Holds(s.procs[pid].phase) && s.procs[pid].row.id == id
                 && !Rewrites(s.procs[pid], s.store.orders[id]);
      s' := HeldChanges(s, id, pid);
    }
  }

  /** A row stays as it is whatever happens if and only if it is settled: finished, or
      without an order URL; held by no call that would write it otherwise; and with no
      listed copy waiting to be resumed. */
  lemma SettledIff(s: Sys, id: nat)
    requires SysInv(s) && id in s.store.orders
    ensures Settled(s, id) <==> forall s' :: Reaches(s, s') ==> !Changed(s, s', id)
  {
    hide SysInv, Settled, CanAct, Do;
    if Settled(s, id) {
      forall s' | Reaches(s, s') ensures !Changed(s, s', id) {
        var ss, acts :| IsPath(ss, acts, s, s');
        SettledForever(ss, acts, 0, |acts|, id);
        InSettled(s', id);
      }
    } else {
      var s' := UnsettledChanges(s, id);
    }
  }

  lemma InSettled(s: Sys, id: nat)
    requires Settled(s, id)
    ensures id in s.store.orders
  {
  }
}
