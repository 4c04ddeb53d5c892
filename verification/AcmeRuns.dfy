/** Runs that exist: what goes wrong when a condition of a theorem fails, and that the
    good case does occur. */
module AcmeRuns {
  import opened AcmeTypes
  import opened Options
  import opened Base64Url
  import opened AcmeMachine
  import opened AcmeDrive
  import opened AcmeDns
  import opened AcmeResume

  // -- Building a run event by event ----------------------------------------

  /** The run goes on by one event, to the state given. */
  lemma Go(c: Config, t: seq<Event>, e: Event, q: Proc)
    requires IsRun(c, t) && Answers(Run(c, t).proc, e) && Enabled(Run(c, t).store, e) && After(Run(c, t).proc, e) == q
    ensures IsRun(c, t + [e]) && Run(c, t + [e]).proc == q
    ensures Run(c, t + [e]).store == Persist(Run(c, t).store, e)
    ensures Kept(t + [e]) == Kept(t) + KeptBy(e) && Lost(t + [e]) == Lost(t) + LostBy(e)
  {
    RunOn(c, t, e);
    assert Init(t + [e]) == t && Last(t + [e]) == e;
  }

  // -- Placing an order -----------------------------------------------------

  /** The row as newOrder left it. */
  function Placed(hosts: seq<string>, id: nat, url: string, finalize: string): OrderRow {
    OrderRow(id, LowerAll(hosts), Pending, url, finalize, "", Dns01, "")
  }

  /** A call for which the server has listed authorisations. */
  function Listed(hosts: seq<string>, id: nat, url: string, finalize: string, authzs: seq<string>, env: Env): Proc {
    Proc(Authorizing(0), Placed(hosts, id, url, finalize), hosts, authzs, None, [], env)
  }

  lemma PlaceSteps(hosts: seq<string>, id: nat, url: string, finalize: string, authzs: seq<string>, env: Env)
    requires id > 0 && authzs != []
    ensures var p0 := StartOrder(hosts, Dns01, env);
            var row0 := p0.row.(id := id);
            var row := Placed(hosts, id, url, finalize);
            var p1, p2 := p0.(phase := Inserting), p0.(phase := Ordering, row := row0);
            var p3 := p0.(phase := PersistPlaced, row := row, authzs := authzs);
            var e3 := OrderReported(NewOrder(hosts), OrderDoc(Pending, authzs, finalize, ""), url);
            && Answers(p0, DirectoryFetched(true)) && After(p0, DirectoryFetched(true)) == p1
            && Answers(p1, RowInserted(row0)) && After(p1, RowInserted(row0)) == p2
            && Answers(p2, e3) && After(p2, e3) == p3
            && Answers(p3, RowWritten(row, true, true))
            && After(p3, RowWritten(row, true, true)) == Listed(hosts, id, url, finalize, authzs, env)
  {
    hide LowerAll;
  }

  lemma ToListed(c: Config, hosts: seq<string>, url: string, finalize: string, authzs: seq<string>, env: Env)
    returns (t: seq<Event>, id: nat)
    requires c.proc == StartOrder(hosts, Dns01, env) && authzs != []
    ensures IsRun(c, t) && Kept(t) == [] && Lost(t) == []
    ensures Run(c, t).proc == Listed(hosts, id, url, finalize, authzs, env) && id in Run(c, t).store.orders
  {
    id := c.store.nextId + 1;
    assert IsRun(c, []) && Run(c, []) == c && Kept([]) == [] && Lost([]) == [];
    hide Answers, After, IsRun, Run, Kept, Lost, StartOrder, LowerAll;
    PlaceSteps(hosts, id, url, finalize, authzs, env);
    var p0, row := StartOrder(hosts, Dns01, env), Placed(hosts, id, url, finalize);
    var row0 := p0.row.(id := id);
    var e1, e2 := DirectoryFetched(true), RowInserted(row0);
    var e3 := OrderReported(NewOrder(hosts), OrderDoc(Pending, authzs, finalize, ""), url);
    Go(c, [], e1, p0.(phase := Inserting));
    Go(c, [] + [e1], e2, p0.(phase := Ordering, row := row0));
    Go(c, [] + [e1] + [e2], e3, p0.(phase := PersistPlaced, row := row, authzs := authzs));
    t := [] + [e1] + [e2] + [e3];
    Go(c, t, RowWritten(row, true, true), Listed(hosts, id, url, finalize, authzs, env));
    t := t + [RowWritten(row, true, true)];
  }

  // -- A name and its wildcard ----------------------------------------------

  /** A pending authorisation of the host, with one dns-01 challenge. */
  function Offer(host: string, token: string): AuthzDoc {
    AuthzDoc(AuthzOther, host, [Challenge("dns-01", token, token)])
  }

  function Removal(host: string, token: string): Teardown {
    Teardown(Dns01, token, host)
  }

  /** A challenge is presented. */
  lemma PresentSteps(p: Proc, k: nat, host: string, token: string, id: string)
    requires p.phase == Authorizing(k) && k < |p.authzs| && p.row.challenge == Dns01
    requires p.env.plugin != "" && host != "" && id != ""
    ensures var e1 := AuthzReported(p.authzs[k], Offer(host, token));
            var e2 := Provisioned(Removal(host, token), token + "." + p.env.thumb, Presented(id));
            var p1 := p.(phase := Provisioning(k, Challenge("dns-01", token, token), host));
            var p2 := p.(phase := Acking(k, token), teardowns := p.teardowns + [Removal(host, token)]);
            && Answers(p, e1) && After(p, e1) == p1
            && Answers(p1, e2) && After(p1, e2) == p2
            && KeptBy(e1) == [] && KeptBy(e2) == [Record(Lower(host), id)] && LostBy(e1) == LostBy(e2) == []
  {
    hide Lower;
  }

  lemma Present(c: Config, t0: seq<Event>, p: Proc, k: nat, host: string, token: string, id: string)
    returns (t: seq<Event>)
    requires IsRun(c, t0) && Run(c, t0).proc == p && Lost(t0) == []
    requires p.phase == Authorizing(k) && k < |p.authzs| && p.row.challenge == Dns01
    requires p.env.plugin != "" && host != "" && id != ""
    ensures IsRun(c, t) && Kept(t) == Kept(t0) + [Record(Lower(host), id)] && Lost(t) == []
    ensures Run(c, t).proc == p.(phase := Acking(k, token), teardowns := p.teardowns + [Removal(host, token)])
    ensures Run(c, t).store == Run(c, t0).store
  {
    hide Answers, After, IsRun, Run, Kept, Lost, KeptBy, LostBy, Lower, Offer, Removal;
    PresentSteps(p, k, host, token, id);
    var e1 := AuthzReported(p.authzs[k], Offer(host, token));
    var e2 := Provisioned(Removal(host, token), token + "." + p.env.thumb, Presented(id));
    Go(c, t0, e1, p.(phase := Provisioning(k, Challenge("dns-01", token, token), host)));
    t := t0 + [e1];
    Go(c, t, e2, p.(phase := Acking(k, token), teardowns := p.teardowns + [Removal(host, token)]));
    t := t + [e2];
  }

  /** It is acknowledged, and the authorisation becomes valid. */
  lemma PassSteps(p: Proc, k: nat, url: string, doc: AuthzDoc)
    requires p.phase == Acking(k, url) && k + 1 < |p.authzs| && p.env.maxPolls > 0 && doc.status.AuthzValid?
    ensures var p1, p2 := p.(phase := AuthzWaiting(k, 0)), p.(phase := AuthzPolling(k, 0));
            var e3 := AuthzReported(p.authzs[k], doc);
            && Answers(p, ChallengeAcked(url)) && After(p, ChallengeAcked(url)) == p1
            && Answers(p1, Waited(false)) && After(p1, Waited(false)) == p2
            && Answers(p2, e3) && After(p2, e3) == p.(phase := Authorizing(k + 1))
  {
  }

  lemma Pass(c: Config, t0: seq<Event>, p: Proc, k: nat, url: string) returns (t: seq<Event>)
    requires IsRun(c, t0) && Run(c, t0).proc == p && Lost(t0) == []
    requires p.phase == Acking(k, url) && k + 1 < |p.authzs| && p.env.maxPolls > 0
    ensures IsRun(c, t) && Kept(t) == Kept(t0) && Lost(t) == []
    ensures Run(c, t).proc == p.(phase := Authorizing(k + 1))
    ensures Run(c, t).store == Run(c, t0).store
  {
    var doc := AuthzDoc(AuthzValid, "", []);
    hide Answers, After, IsRun, Run, Kept, Lost;
    PassSteps(p, k, url, doc);
    var e3 := AuthzReported(p.authzs[k], doc);
    Go(c, t0, ChallengeAcked(url), p.(phase := AuthzWaiting(k, 0)));
    t := t0 + [ChallengeAcked(url)];
    Go(c, t, Waited(false), p.(phase := AuthzPolling(k, 0)));
    t := t + [Waited(false)];
    Go(c, t, e3, p.(phase := Authorizing(k + 1)));
    t := t + [e3];
  }

  /** The second one cannot be acknowledged, so the drive gives up, */
  lemma FailSteps(p: Proc, k: nat, url: string)
    requires p.phase == Acking(k, url) && |p.teardowns| == 2
    ensures var e1, e2 := PostFailed(AckChallenge(url)), RowWritten(p.row.(status := Invalid), true, true);
            var p1, p2 := p.(phase := Marking), p.(phase := CleaningUp(0, Failed));
            && Answers(p, e1) && After(p, e1) == p1
            && Answers(p1, e2) && After(p1, e2) == p2
  {
  }

  /** and cleans up. */
  lemma TearSteps(p: Proc)
    requires |p.teardowns| == 2
    ensures var p1, p2 := p.(phase := CleaningUp(0, Failed)), p.(phase := CleaningUp(1, Failed));
            && Answers(p1, TornDown(p.teardowns[0])) && After(p1, TornDown(p.teardowns[0])) == p2
            && Answers(p2, TornDown(p.teardowns[1])) && After(p2, TornDown(p.teardowns[1])) == p.(phase := Done(Failed))
  {
  }

  lemma GiveUp(c: Config, t0: seq<Event>, p: Proc, k: nat, url: string) returns (t: seq<Event>)
    requires IsRun(c, t0) && Run(c, t0).proc == p && Lost(t0) == []
    requires p.phase == Acking(k, url) && |p.teardowns| == 2 && p.row.id in Run(c, t0).store.orders
    ensures IsRun(c, t) && Kept(t) == Kept(t0) && Lost(t) == []
    ensures Run(c, t).proc == p.(phase := Done(Failed))
  {
    hide Answers, After, IsRun, Run, Kept, Lost;
    FailSteps(p, k, url);
    TearSteps(p);
    var e1, e2 := PostFailed(AckChallenge(url)), RowWritten(p.row.(status := Invalid), true, true);
    Go(c, t0, e1, p.(phase := Marking));
    t := t0 + [e1];
    Go(c, t, e2, p.(phase := CleaningUp(0, Failed)));
    t := t + [e2];
    Go(c, t, TornDown(p.teardowns[0]), p.(phase := CleaningUp(1, Failed)));
    t := t + [TornDown(p.teardowns[0])];
    Go(c, t, TornDown(p.teardowns[1]), p.(phase := Done(Failed)));
    t := t + [TornDown(p.teardowns[1])];
  }

  /** What one call holds after two challenges for one host. */
  function Twice(p: Proc, host: string): Proc {
    p.(phase := Acking(1, "token-2"), teardowns := [Removal(host, "token-1"), Removal(host, "token-2")])
  }

  lemma PresentTwice(c: Config, t0: seq<Event>, p: Proc, host: string, a: string, b: string) returns (t: seq<Event>)
    requires IsRun(c, t0) && Run(c, t0).proc == p && Kept(t0) == [] && Lost(t0) == []
    requires p.phase == Authorizing(0) && |p.authzs| == 2 && p.row.challenge == Dns01 && p.teardowns == []
    requires host != "" && a != "" && b != "" && p.env.plugin != "" && p.env.maxPolls > 0
    ensures IsRun(c, t) && Run(c, t).proc == Twice(p, host) && Run(c, t).store == Run(c, t0).store && Lost(t) == []
    ensures Kept(t) == [Record(Lower(host), a), Record(Lower(host), b)]
  {
    hide Answers, After, IsRun, Run, Kept, Lost, Lower, Removal;
    var p1 := p.(phase := Acking(0, "token-1"), teardowns := p.teardowns + [Removal(host, "token-1")]);
    t := Present(c, t0, p, 0, host, "token-1", a);
    t := Pass(c, t, p1, 0, "token-1");
    t := Present(c, t, p1.(phase := Authorizing(1)), 1, host, "token-2", b);
  }

  /** An order for a name and its wildcard: both authorisations are for the name, two
      records are created, and only the second is ever passed to dns.cleanup. */
  lemma WildcardRecordLost(c: Config, host: string, a: string, b: string, env: Env) returns (t: seq<Event>)
    requires c.proc == StartOrder([host, "*." + host], Dns01, env)
    requires host != "" && a != "" && b != "" && env.plugin != "" && env.maxPolls > 0
    ensures Fresh(c) && IsRun(c, t) && Run(c, t).proc.phase == Done(Failed)
    ensures Kept(t) == [Record(Lower(host), a), Record(Lower(host), b)]
    ensures Run(c, t).world.cleaned == c.world.cleaned + [b]
  {
    hide Answers, After, IsRun, Run, Kept, Lost, Lower, LowerAll, Calls, Hosts;
    var id;
    t, id := ToListed(c, [host, "*." + host], "order", "finalize", ["authz-1", "authz-2"], env);
    var p := Run(c, t).proc;
    t := PresentTwice(c, t, p, host, a, b);
    t := GiveUp(c, t, Twice(p, host), 1, "token-2");
    EachRecordCleanedOnceIff(c, t);
    OneCall(Lower(host), a, b);
    assert Kept(t) + Lost(t) == Kept(t);
  }

  lemma OneCall(host: string, a: string, b: string)
    ensures var rs := [Record(host, a), Record(host, b)]; Calls(rs, Hosts(rs)) == [b]
  {
    var rs := [Record(host, a), Record(host, b)];
    var hs := Hosts(rs);
    assert hs == [host, host];
    assert Init(hs) == [host] && Init([host]) == [];
    assert Calls(rs, []) == [];
    assert Calls(rs, [host]) == [FinalId(rs, host)];
  }

  // -- Renewal over dns-01, without a plugin name ---------------------------

  /** The authorisation is valid already: the order becomes ready, */
  lemma ValidSteps(p: Proc)
    requires p.phase == Authorizing(0) && |p.authzs| == 1
    ensures var e1 := AuthzReported(p.authzs[0], AuthzDoc(AuthzValid, "", []));
            var e2 := OrderReported(FetchOrder(p.row.orderURL), OrderDoc(Ready, [], "", ""), "");
            var p1 := p.(phase := Refreshing);
            var p2 := p.(phase := PersistRefreshed, row := p.row.(status := Ready));
            && Answers(p, e1) && After(p, e1) == p1
            && Answers(p1, e2) && After(p1, e2) == p2
            && Answers(p2, RowWritten(p2.row, true, true))
            && After(p2, RowWritten(p2.row, true, true)) == p2.(phase := MakingKey)
  {
  }

  /** and is finalized at once. */
  lemma FinalizeSteps(p: Proc, key: Key, der: seq<byte>, url: string)
    requires p.phase == MakingKey && p.row.status == Ready && url != ""
    ensures var csr := Encoded(der);
            var p1 := p.(phase := Finalizing(csr), subject := Some(SubjectKey(key, der)));
            var e2 := OrderReported(Finalize(p.row.finalizeURL, csr), OrderDoc(Valid, [], "", url), "");
            var p2 := p1.(phase := PersistFinalized, row := p.row.(status := Valid, certificateURL := url));
            && Answers(p, KeyBuilt(key, der)) && After(p, KeyBuilt(key, der)) == p1
            && Answers(p1, e2) && After(p1, e2) == p2
            && Answers(p2, RowWritten(p2.row, true, true))
            && After(p2, RowWritten(p2.row, true, true)) == p2.(phase := Downloading)
  {
    hide Encoded;
  }

  /** The same call once its order is ready. */
  function Readied(p: Proc): Proc {
    p.(phase := MakingKey, row := p.row.(status := Ready))
  }

  lemma ToReady(c: Config, t0: seq<Event>, p: Proc) returns (t: seq<Event>)
    requires IsRun(c, t0) && Run(c, t0).proc == p && p.row.id in Run(c, t0).store.orders
    requires p.phase == Authorizing(0) && |p.authzs| == 1
    ensures IsRun(c, t) && Run(c, t).proc == Readied(p) && p.row.id in Run(c, t).store.orders
  {
    hide Answers, After, IsRun, Run, Kept, Lost;
    ValidSteps(p);
    var q := Readied(p);
    var e1 := AuthzReported(p.authzs[0], AuthzDoc(AuthzValid, "", []));
    var e2 := OrderReported(FetchOrder(p.row.orderURL), OrderDoc(Ready, [], "", ""), "");
    Go(c, t0, e1, p.(phase := Refreshing));
    Go(c, t0 + [e1], e2, q.(phase := PersistRefreshed));
    t := t0 + [e1] + [e2];
    Go(c, t, RowWritten(q.row, true, true), q);
    t := t + [RowWritten(q.row, true, true)];
  }

  lemma ToFinalized(c: Config, t0: seq<Event>, p: Proc, key: Key, der: seq<byte>, url: string) returns (t: seq<Event>)
    requires IsRun(c, t0) && Run(c, t0).proc == p && p.row.id in Run(c, t0).store.orders
    requires p.phase == MakingKey && p.row.status == Ready && url != ""
    ensures IsRun(c, t) && Run(c, t).proc.phase == Downloading && Run(c, t).proc.hostnames == p.hostnames
    ensures Run(c, t).proc.subject == Some(SubjectKey(key, der))
  {
    hide Answers, After, IsRun, Run, Kept, Lost, Encoded;
    FinalizeSteps(p, key, der, url);
    var p1 := p.(phase := Finalizing(Encoded(der)), subject := Some(SubjectKey(key, der)));
    var p2 := p1.(phase := PersistFinalized, row := p.row.(status := Valid, certificateURL := url));
    var e2 := OrderReported(Finalize(p.row.finalizeURL, Encoded(der)), OrderDoc(Valid, [], "", url), "");
    Go(c, t0, KeyBuilt(key, der), p1);
    t := t0 + [KeyBuilt(key, der)];
    Go(c, t, e2, p2);
    t := t + [e2];
    Go(c, t, RowWritten(p2.row, true, true), p2.(phase := Downloading));
    t := t + [RowWritten(p2.row, true, true)];
  }

  /** A dns-01 call without a plugin that saves a certificate: its authorisation was valid
      already. */
  lemma ValidIsRenewed(c: Config, hosts: seq<string>, env: Env, key: Key, der: seq<byte>, chain: string)
    returns (t: seq<Event>, cert: Cert)
    requires c.proc == StartOrder(hosts, Dns01, env) && hosts != [] && env.plugin == ""
    ensures Fresh(c) && IsRun(c, t) && CertWritten(cert, true, true) in t
    ensures cert.hostname == Lower(hosts[0]) && cert.key == key && cert.chain == chain
  {
    hide Answers, After, IsRun, Run, Kept, Lost, Encoded, Lower, LowerAll;
    var id;
    t, id := ToListed(c, hosts, "order", "finalize", ["authz"], env);
    var p := Run(c, t).proc;
    t := ToReady(c, t, p);
    t := ToFinalized(c, t, Readied(p), key, der, "cert");
    cert := Cert(Lower(hosts[0]), chain, key, 0, Run(c, t).proc.row.id);
    t := ToSaved(c, t, Run(c, t), cert);
  }

  lemma RefusedSteps(p: Proc, host: string)
    requires p.phase == Authorizing(0) && |p.authzs| == 1 && p.row.challenge == Dns01 && p.teardowns == []
    ensures var e1 := AuthzReported(p.authzs[0], Offer(host, "token"));
            var e2 := Provisioned(Removal(host, "token"), "token" + "." + p.env.thumb, Refused);
            var p1 := p.(phase := Provisioning(0, Challenge("dns-01", "token", "token"), host));
            && Answers(p, e1) && After(p, e1) == p1
            && Answers(p1, e2) && After(p1, e2) == p.(phase := Marking)
  {
  }

  lemma MarkStep(p: Proc)
    requires p.phase == Marking && p.teardowns == []
    ensures var e := RowWritten(p.row.(status := Invalid), true, true);
            Answers(p, e) && After(p, e) == p.(phase := Done(Failed))
  {
  }

  /** And one whose authorisation was pending: it ends with its row marked invalid. */
  lemma PendingIsMarkedInvalid(c: Config, hosts: seq<string>, env: Env, host: string) returns (t: seq<Event>, id: nat)
    requires c.proc == StartOrder(hosts, Dns01, env) && hosts != [] && env.plugin == ""
    ensures Fresh(c) && IsRun(c, t) && Run(c, t).proc.phase == Done(Failed)
    ensures id in Run(c, t).store.orders && Run(c, t).store.orders[id].status == Invalid
  {
    hide Answers, After, IsRun, Run, Kept, Lost, LowerAll, Offer, Removal;
    t, id := ToListed(c, hosts, "order", "finalize", ["authz"], env);
    var p := Run(c, t).proc;
    RefusedSteps(p, host);
    MarkStep(p.(phase := Marking));
    var e1 := AuthzReported(p.authzs[0], Offer(host, "token"));
    var e2 := Provisioned(Removal(host, "token"), "token" + "." + p.env.thumb, Refused);
    var e3 := RowWritten(p.row.(status := Invalid), true, true);
    Go(c, t, e1, p.(phase := Provisioning(0, Challenge("dns-01", "token", "token"), host)));
    t := t + [e1];
    Go(c, t, e2, p.(phase := Marking));
    t := t + [e2];
    Go(c, t, e3, p.(phase := Done(Failed)));
    t := t + [e3];
  }
}
