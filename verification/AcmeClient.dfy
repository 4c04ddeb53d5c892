/** The ACME client as it runs: Order, resumeOrder, driveOrder and
    processAuthorization of internal/acme/order.go over a store, three challengers
    and the shared poster. Each method is proved to take exactly the steps of the
    machine in AcmeMachine, so what is proved of the machine's runs holds of it. */
module AcmeClient {
  import opened AcmeTypes
  import opened Options
  import opened AcmeMachine
  import opened AcmeDrive
  import opened AcmeBounds
  import opened Base64Url
  import Nonces

  datatype Lookup<+T> = Found(value: T) | NotFound | Broken

  /** The acme_orders and acme_certs tables. A write may fail, before or after it
      took effect. */
  class OrderStore {
    var orders: map<nat, OrderRow>
    var certs: map<string, Cert>
    var nextId: nat

    constructor ()
      ensures View() == Store(map[], map[], 1)
    {
      orders, certs, nextId := map[], map[], 1;
    }

    ghost function View(): Store
      reads this
    {
      Store(orders, certs, nextId)
    }

    method InsertOrder(row: OrderRow) returns (ok: bool, stored: OrderRow, applied: bool)
      requires nextId > 0
      modifies this
      ensures (ok ==> applied) && stored == row.(id := stored.id) && stored.id >= old(nextId)
      ensures View() == if applied then Persist(old(View()), RowInserted(stored)) else old(View())
    {
      var id: nat :| id >= nextId;
      ok, applied, stored := false, *, row.(id := id);
      if applied {
        ok := *;
        orders, nextId := orders[id := stored], id + 1;
      }
    }

    method UpdateOrder(row: OrderRow) returns (ok: bool, applied: bool)
      modifies this
      ensures ok ==> applied
      ensures applied ==> row.id in old(orders)
      ensures View() == Persist(old(View()), RowWritten(row, applied, ok))
    {
      ok, applied := false, false;
      if row.id in orders {
        applied := *;
        if applied {
          ok := *;
          orders := orders[row.id := row];
        }
      }
    }

    method UpsertCert(cert: Cert) returns (ok: bool, applied: bool)
      modifies this
      ensures ok ==> applied
      ensures View() == Persist(old(View()), CertWritten(cert, applied, ok))
    {
      ok, applied := false, *;
      if applied {
        ok := *;
        certs := certs[cert.hostname := cert];
      }
    }

    /** The queries may fail; an absent row is told apart from a failure. */
    method GetCert(host: string) returns (r: Lookup<Cert>)
      ensures r.Found? ==> Lower(host) in certs && r.value == certs[Lower(host)]
      ensures r.NotFound? ==> Lower(host) !in certs
    {
      var ok: bool := *;
      var key := Lower(host);
      r := if !ok then Broken else if key in certs then Found(certs[key]) else NotFound;
    }

    method GetOrder(id: nat) returns (r: Lookup<OrderRow>)
      ensures r.Found? ==> id in orders && r.value == orders[id]
      ensures r.NotFound? ==> id !in orders
    {
      var ok: bool := *;
      r := if !ok then Broken else if id in orders then Found(orders[id]) else NotFound;
    }

    /** Every certificate that expires before the cutoff, once, the earliest first. */
    method ListCertsExpiringBefore(cutoff: int) returns (ok: bool, cs: seq<Cert>)
      requires forall h :: h in certs ==> certs[h].hostname == h
      ensures ok ==> forall i :: 0 <= i < |cs| ==> cs[i].hostname in certs && certs[cs[i].hostname] == cs[i]
      ensures ok ==> forall i, j :: 0 <= i < j < |cs| ==> cs[i].hostname != cs[j].hostname
      ensures ok ==> forall h :: h in certs ==> (certs[h] in cs <==> certs[h].notAfter < cutoff)
      ensures ok ==> InExpiryOrder(certs, cs, {})
    {
      hide InExpiryOrder, IsEarliest;
      NoneListed(certs);
      ok, cs := *, [];
      var todo := certs.Keys;
      while todo != {}
        invariant todo <= certs.Keys
        invariant forall i :: 0 <= i < |cs| ==> cs[i].hostname in certs.Keys - todo && certs[cs[i].hostname] == cs[i]
        invariant forall i, j :: 0 <= i < j < |cs| ==> cs[i].hostname != cs[j].hostname
        invariant forall i :: 0 <= i < |cs| ==> cs[i].notAfter < cutoff
        invariant InExpiryOrder(certs, cs, todo)
        invariant forall h :: h in certs && h !in todo && certs[h].notAfter < cutoff ==> certs[h] in cs
      {
        EarliestExists(certs, todo);
        var h :| h in todo && IsEarliest(certs, todo, h);
        NextExpiry(certs, cs, todo, h);
        todo := todo - {h};
        if certs[h].notAfter < cutoff {
          cs := cs + [certs[h]];
        }
      }
    }

    /** Every order with this status, once. */
    method ListOrdersByStatus(s: Status) returns (ok: bool, rows: seq<OrderRow>)
      requires forall id :: id in orders ==> orders[id].id == id
      ensures ok ==> forall i :: 0 <= i < |rows| ==>
                rows[i].id in orders && orders[rows[i].id] == rows[i] && rows[i].status == s
      ensures ok ==> forall i, j :: 0 <= i < j < |rows| ==> rows[i].id != rows[j].id
      ensures ok ==> forall id :: id in orders && orders[id].status == s ==> orders[id] in rows
    {
      ok, rows := *, [];
      var todo := orders.Keys;
      while todo != {}
        invariant todo <= orders.Keys
        invariant forall i :: 0 <= i < |rows| ==>
                    rows[i].id in orders.Keys - todo && orders[rows[i].id] == rows[i] && rows[i].status == s
        invariant forall i, j :: 0 <= i < j < |rows| ==> rows[i].id != rows[j].id
        invariant forall id :: id in orders && id !in todo && orders[id].status == s ==> orders[id] in rows
      {
        var id :| id in todo;
        todo := todo - {id};
        if orders[id].status == s {
          rows := rows + [orders[id]];
        }
      }
    }
  }

  predicate IsEarliest(certs: map<string, Cert>, todo: set<string>, h: string)
    requires todo <= certs.Keys
  {
    h in todo && forall g :: g in todo ==> certs[h].notAfter <= certs[g].notAfter
  }

  lemma {:induction false} EarliestExists(certs: map<string, Cert>, todo: set<string>)
    requires todo != {} && todo <= certs.Keys
    ensures exists h :: h in todo && IsEarliest(certs, todo, h)
  {
    var h :| h in todo;
    var rest := todo - {h};
    if rest == {} {
      assert todo == {h};
      assert IsEarliest(certs, todo, h);
    } else {
      EarliestExists(certs, rest);
      var g :| g in rest && IsEarliest(certs, rest, g);
      assert IsEarliest(certs, todo, if certs[h].notAfter <= certs[g].notAfter then h else g);
    }
  }

  /** Expiring certificates in order of expiry, none later than those still to come. */
  predicate InExpiryOrder(certs: map<string, Cert>, cs: seq<Cert>, todo: set<string>)
    requires todo <= certs.Keys
  {
    && (forall i, j :: 0 <= i < j < |cs| ==> cs[i].notAfter <= cs[j].notAfter)
    && (forall i, h :: 0 <= i < |cs| && h in todo ==> cs[i].notAfter <= certs[h].notAfter)
  }

  lemma NoneListed(certs: map<string, Cert>)
    ensures InExpiryOrder(certs, [], certs.Keys)
  {
  }

  lemma NextExpiry(certs: map<string, Cert>, cs: seq<Cert>, todo: set<string>, h: string)
    requires todo <= certs.Keys && InExpiryOrder(certs, cs, todo) && IsEarliest(certs, todo, h)
    ensures InExpiryOrder(certs, cs, todo - {h}) && InExpiryOrder(certs, cs + [certs[h]], todo - {h})
  {
  }

  class HTTPChallenger {
    var tokens: map<string, string>

    constructor ()
      ensures tokens == map[]
    {
      tokens := map[];
    }

    /** A second Provision of a token replaces the first; no token, no entry. */
    method Provision(token: string, keyAuth: string)
      modifies this
      ensures tokens == if token == "" then old(tokens) else old(tokens)[token := keyAuth]
    {
      if token == "" {
        return;
      }
      tokens := tokens[token := keyAuth];
    }

    method Cleanup(token: string)
      modifies this
      ensures tokens == old(tokens) - {token}
    {
      tokens := tokens - {token};
    }
  }

  /** The certificate built for a challenge stands as the key authorisation it
      carries; built says whether the last attempt to build one succeeded. */
  class TLSALPNChallenger {
    var certs: map<string, string>
    ghost var built: bool

    constructor ()
      ensures certs == map[]
    {
      certs := map[];
    }

    /** buildTLSALPNCert. */
    method Build() returns (ok: bool)
      modifies this`built
      ensures ok == built
    {
      ok := *;
      built := ok;
    }

    method Provision(host: string, keyAuth: string) returns (ok: bool)
      modifies this
      ensures ok <==> host != "" && built
      ensures certs == if ok then old(certs)[Lower(host) := keyAuth] else old(certs)
    {
      if host == "" {
        return false;
      }
      ok := Build();
      if ok {
        certs := certs[Lower(host) := keyAuth];
      }
    }

    method Cleanup(host: string)
      modifies this
      ensures certs == old(certs) - {Lower(host)}
    {
      certs := certs - {Lower(host)};
    }
  }

  /** The records map, and the ids passed to the plugin's dns.cleanup; reply is what
      dns.present last returned. */
  class DNS01Challenger {
    var records: map<string, string>
    var cleaned: seq<string>
    ghost var reply: Option<string>

    constructor ()
      ensures records == map[] && cleaned == []
    {
      records, cleaned := map[], [];
    }

    /** The plugin's dns.present. */
    method Present() returns (ok: bool, id: string)
      modifies this`reply
      ensures reply == if ok then Some(id) else None
    {
      ok, id := *, *;
      reply := if ok then Some(id) else None;
    }

    method Provision(domain: string, keyAuth: string, plugin: string) returns (o: AcmeMachine.Provision)
      modifies this
      ensures o.Refused? <==> plugin == "" || domain == "" || reply.None? || reply.value == ""
      ensures !o.Refused? ==> Some(o.id) == reply
      ensures cleaned == old(cleaned)
      ensures records == if o.Refused? then old(records) else old(records)[Lower(domain) := o.id]
    {
      if plugin == "" || domain == "" {
        return Refused;
      }
      var called, id := Present();
      if !called || id == "" {
        return Refused;
      }
      records := records[Lower(domain) := id];
      var cancelled: bool := *;
      o := if cancelled then Abandoned(id) else Presented(id);
    }

    method Cleanup(domain: string, plugin: string)
      modifies this
      ensures plugin == "" || Lower(domain) !in old(records) ==> records == old(records) && cleaned == old(cleaned)
      ensures plugin != "" && Lower(domain) in old(records) ==>
                records == old(records) - {Lower(domain)} && cleaned == old(cleaned) + [old(records)[Lower(domain)]]
    {
      if plugin == "" {
        return;
      }
      var key := Lower(domain);
      if key !in records {
        return;
      }
      var id := records[key];
      records := records - {key};
      cleaned := cleaned + [id];
    }
  }

  /** challengeCleanup: what each closure captured, in order. */
  class ChallengeCleanup {
    var fns: seq<Teardown>

    constructor ()
      ensures fns == []
    {
      fns := [];
    }

    method Add(t: ChallengeType, token: string, host: string)
      modifies this
      ensures fns == old(fns) + [Teardown(t, token, host)]
    {
      fns := fns + [Teardown(t, token, host)];
    }
  }

  lemma Linking(c0: Config, t: seq<Event>, e: Event)
    requires IsRun(c0, t) && Possible(Run(c0, t), e)
    ensures IsRun(c0, t + [e]) && Run(c0, t + [e]) == Exec(Run(c0, t), e)
    ensures PostCount(t + [e]) == PostCount(t) + if IsPost(e) then 1 else 0
  {
    RunOn(c0, t, e);
    assert Init(t + [e]) == t && Last(t + [e]) == e;
  }

  /** What Order was called with. */
  datatype Asked = Asked(hostnames: seq<string>, challenge: ChallengeType, plugin: string)

  /** For the record, every call of Order. */
  class Ledger {
    ghost var calls: seq<Asked>

    constructor ()
      ensures calls == []
    {
      calls := [];
    }
  }

  class Client {
    const store: OrderStore
    const http: HTTPChallenger
    const alpn: TLSALPNChallenger
    const dns: DNS01Challenger
    const poster: Nonces.Poster
    const wired: set<ChallengeType>
    const maxPolls: nat
    const thumb: string
    const ledger: Ledger

    // What the current call has done, and where it stands in the machine.
    ghost var trace: seq<Event>
    ghost var proc: Proc
    ghost var httpPosts: nat

    constructor (store: OrderStore, wired: set<ChallengeType>, maxPolls: nat, thumb: string)
      ensures this.store == store && this.wired == wired && this.maxPolls == maxPolls && this.thumb == thumb
      ensures poster.Valid() && World() == Challengers(map[], map[], map[], []) && ledger.calls == []
    {
      this.store, this.wired, this.maxPolls, this.thumb := store, wired, maxPolls, thumb;
      http := new HTTPChallenger();
      alpn := new TLSALPNChallenger();
      dns := new DNS01Challenger();
      poster := new Nonces.Poster();
      ledger := new Ledger();
      trace, httpPosts := [], 0;
      proc := StartOrder([], Unset, Env(maxPolls, "", thumb));
    }

    ghost function World(): Challengers
      reads http, alpn, dns
    {
      Challengers(http.tokens, alpn.certs, dns.records, dns.cleaned)
    }

    ghost function Repr(): set<object> {
      {this, store, http, alpn, dns, poster, poster.cache}
    }

    /** The call's events so far are a run of the machine from c0, to here; and each
        post took at most three HTTP requests. */
    ghost predicate Linked(c0: Config)
      reads Repr()
    {
      && IsRun(c0, trace)
      && Run(c0, trace) == Config(proc, store.View(), World())
      && poster.Valid()
      && store.nextId > 0
      && httpPosts <= 3 * PostCount(trace)
    }

    ghost function Setting(plugin: string): Env {
      Env(maxPolls, plugin, thumb)
    }

    // -- One event each ------------------------------------------------------

    ghost method Note(c0: Config, e: Event)
      requires IsRun(c0, trace) && Possible(Run(c0, trace), e) && proc == Run(c0, trace).proc
      requires httpPosts <= 3 * PostCount(trace) + if IsPost(e) then 3 else 0
      modifies this`trace, this`proc
      ensures IsRun(c0, trace) && Run(c0, trace) == Exec(Run(c0, old(trace)), e)
      ensures proc == After(old(proc), e) && proc == Run(c0, trace).proc
      ensures httpPosts <= 3 * PostCount(trace)
    {
      Linking(c0, trace, e);
      trace, proc := trace + [e], After(proc, e);
    }

    method FetchDirectory(ghost c0: Config) returns (ok: bool)
      requires Linked(c0) && Due(proc) == AskDirectory
      modifies Repr()
      ensures Linked(c0) && proc == old(proc).(phase := if ok then Inserting else CleanUp(old(proc), Failed))
    {
      ok := *;
      Note(c0, DirectoryFetched(ok));
    }

    method InsertRow(ghost c0: Config, row: OrderRow) returns (ok: bool, stored: OrderRow)
      requires Linked(c0) && proc.phase.Inserting? && proc.row == row
      modifies Repr()
      ensures Linked(c0) && (ok ==> stored == row.(id := stored.id))
      ensures proc == if ok then old(proc).(phase := Ordering, row := stored)
                      else old(proc).(phase := CleanUp(old(proc), Failed))
    {
      var applied;
      ok, stored, applied := store.InsertOrder(row);
      Note(c0, if ok then RowInserted(stored) else InsertFailed(stored, applied));
    }

    method WriteRow(ghost c0: Config, row: OrderRow) returns (ok: bool)
      requires Linked(c0) && Due(proc) == Write(row)
      modifies Repr()
      ensures Linked(c0) && proc == old(proc).(phase := OnWritten(old(proc), ok))
    {
      var applied;
      ok, applied := store.UpdateOrder(row);
      Note(c0, RowWritten(row, applied, ok));
    }

    method MarkOrderInvalid(ghost c0: Config, row: OrderRow, cause: string)
      requires Linked(c0) && Due(proc) == MarkInvalid && row == proc.row
      modifies Repr()
      ensures Linked(c0) && proc == old(proc).(phase := CleanUp(old(proc), Failed))
    {
      var marked := row.(status := Invalid, error := cause);
      var ok, applied := store.UpdateOrder(marked);
      Note(c0, RowWritten(marked, applied, ok));
    }

    /** One logical post. */
    method Send() returns (ok: bool)
      requires poster.Valid()
      modifies poster, poster.cache, this`httpPosts
      ensures poster.Valid() && httpPosts <= old(httpPosts) + 3
      ensures ok <==> poster.ending == Nonces.Succeeded
    {
      var log := poster.Post();
      httpPosts := httpPosts + |log|;
      ok := log[|log| - 1] == Nonces.Succeeded;
    }

    /** A failed post: only the re-fetch of a resumed order leaves the row alone. */
    ghost function AfterFailure(p: Proc): Phase {
      if p.phase.Refetching? then CleanUp(p, Failed) else Marking
    }

    method PostOrder(ghost c0: Config, req: Request) returns (r: Option<OrderDoc>, location: string)
      requires Linked(c0) && Due(proc) == Post(req) && AsksOrder(proc.phase)
      modifies Repr()
      ensures Linked(c0) && (r.Some? <==> poster.ending == Nonces.Succeeded)
      ensures r.Some? ==> proc == old(proc).(phase := OnOrder(old(proc)),
                                             row := NextRow(old(proc), OrderReported(req, r.value, location)),
                                             authzs := NextAuthzs(old(proc), OrderReported(req, r.value, location)))
      ensures r.None? ==> proc == old(proc).(phase := AfterFailure(old(proc)))
    {
      var ok := Send();
      r, location := None, *;
      if ok {
        var token: string, authzs: seq<string>, finalize: string, certificate: string := *, *, *, *;
        r := Some(OrderDoc(ParseStatus(token), authzs, finalize, certificate));
      }
      Note(c0, if r.Some? then OrderReported(req, r.value, location) else PostFailed(req));
    }

    method PostAuthz(ghost c0: Config, url: string) returns (r: Option<AuthzDoc>)
      requires Linked(c0) && Due(proc) == Post(FetchAuthz(url))
      modifies Repr()
      ensures Linked(c0) && (r.Some? <==> poster.ending == Nonces.Succeeded)
      ensures proc == old(proc).(phase := if r.Some? then OnAuthz(old(proc), r.value) else Marking)
    {
      var ok := Send();
      r := None;
      if ok {
        var token: string, host: string, challenges: seq<Challenge> := *, *, *;
        r := Some(AuthzDoc(ParseAuthzStatus(token), host, challenges));
      }
      Note(c0, if r.Some? then AuthzReported(url, r.value) else PostFailed(FetchAuthz(url)));
    }

    method PostAck(ghost c0: Config, url: string) returns (ok: bool)
      requires Linked(c0) && proc.phase.Acking? && proc.phase.url == url
      modifies Repr()
      ensures Linked(c0) && (ok <==> poster.ending == Nonces.Succeeded)
      ensures proc == old(proc).(phase := if ok then NextAuthzPoll(old(proc), old(proc.phase).k, 0) else Marking)
    {
      ok := Send();
      Note(c0, if ok then ChallengeAcked(url) else PostFailed(AckChallenge(url)));
    }

    method PostDownload(ghost c0: Config, url: string) returns (r: Option<string>)
      requires Linked(c0) && Due(proc) == Post(Download(url))
      modifies Repr()
      ensures Linked(c0) && proc == old(proc).(phase := if r.Some? then Parsing(r.value) else Marking)
      ensures r.Some? <==> poster.ending == Nonces.Succeeded
    {
      var ok := Send();
      var chain: string := *;
      r := if ok then Some(chain) else None;
      Note(c0, if r.Some? then ChainDownloaded(url, r.value) else PostFailed(Download(url)));
    }

    /** provisionChallenge: the challenger of the type answers. */
    method Dispatch(t: ChallengeType, token: string, keyAuth: string, host: string, plugin: string)
      returns (ok: bool, ghost o: Provision)
      modifies http, alpn, dns
      ensures ok == o.Presented? && CanEnd(Teardown(t, token, host), plugin, o)
      ensures World() == Raise(old(World()), Teardown(t, token, host), keyAuth, o)
    {
      match t {
        case Http01 =>
          http.Provision(token, keyAuth);
          ok, o := true, Presented("");
        case TlsAlpn01 =>
          ok := alpn.Provision(host, keyAuth);
          o := if ok then Presented("") else Refused;
        case Dns01 =>
          var r := dns.Provision(host, keyAuth, plugin);
          ok, o := r.Presented?, r;
        case Unset =>
          ok, o := false, Refused;
      }
    }

    method ProvisionChallenge(ghost c0: Config, t: ChallengeType, token: string, keyAuth: string, host: string,
                              plugin: string)
      returns (ok: bool, ghost o: Provision)
      requires Linked(c0) && Due(proc) == Present(Teardown(t, token, host), keyAuth) && proc.env.plugin == plugin
      modifies Repr()
      ensures Linked(c0) && ok == o.Presented?
      ensures proc == old(proc).(phase := OnProvisioned(old(proc), o),
                                 teardowns := if ok then old(proc.teardowns) + [Teardown(t, token, host)]
                                              else old(proc.teardowns))
    {
      hide Raise, CanEnd;
      ok, o := Dispatch(t, token, keyAuth, host, plugin);
      Note(c0, Provisioned(Teardown(t, token, host), keyAuth, o));
    }

    method TearDown(ghost c0: Config, t: Teardown, plugin: string)
      requires Linked(c0) && Due(proc) == Remove(t) && proc.env.plugin == plugin
      modifies Repr()
      ensures Linked(c0) && proc == old(proc).(phase := OnTornDown(old(proc)))
    {
      match t.challenge {
        case Http01 => http.Cleanup(t.token);
        case TlsAlpn01 => alpn.Cleanup(t.host);
        case Dns01 => dns.Cleanup(t.host, plugin);
        case Unset =>
      }
      Note(c0, TornDown(t));
    }

    /** The poll interval, or cancellation of the context. */
    method AwaitTick(ghost c0: Config) returns (cancelled: bool)
      requires Linked(c0) && Due(proc) == Wait
      modifies Repr()
      ensures Linked(c0) && proc == old(proc).(phase := OnWaited(old(proc), cancelled))
    {
      cancelled := *;
      Note(c0, Waited(cancelled));
    }

    method BuildCSR(ghost c0: Config) returns (r: Option<SubjectKey>)
      requires Linked(c0) && Due(proc) == MakeKey
      modifies Repr()
      ensures Linked(c0)
      ensures r.None? ==> proc == old(proc).(phase := Marking)
      ensures r.Some? ==> proc == old(proc).(subject := r,
                                             phase := NextPhase(old(proc), KeyBuilt(r.value.key, r.value.der)))
    {
      r := *;
      Note(c0, if r.Some? then KeyBuilt(r.value.key, r.value.der) else KeyFailed);
    }

    method ParseLeafOf(ghost c0: Config, chain: string) returns (r: Option<int>)
      requires Linked(c0) && Due(proc) == ParseLeaf && proc.subject.Some? && proc.hostnames != []
      modifies Repr()
      ensures Linked(c0) && proc == old(proc).(phase := if r.Some? then OnLeaf(old(proc), r.value) else Marking)
    {
      r := *;
      Note(c0, if r.Some? then LeafParsed(r.value) else LeafRejected);
    }

    method SaveCert(ghost c0: Config, cert: Cert) returns (ok: bool)
      requires Linked(c0) && Due(proc) == Save(cert)
      modifies Repr()
      ensures Linked(c0) && proc == old(proc).(phase := if ok then PersistSaved(cert) else CleanUp(old(proc), Failed))
    {
      var encoded: bool := *;
      if !encoded {
        Note(c0, KeyRejected);
        return false;
      }
      var applied;
      ok, applied := store.UpsertCert(cert);
      Note(c0, CertWritten(cert, applied, ok));
    }

    // -- The pipeline --------------------------------------------------------

    /** Everything of the call but its phase, teardowns and row. */
    ghost predicate SameCall(p: Proc, q: Proc) {
      p.hostnames == q.hostnames && p.authzs == q.authzs && p.env == q.env
    }

    method PickChallenge(cs: seq<Challenge>, want: string) returns (r: Option<Challenge>)
      ensures r == FindChallenge(cs, want)
    {
      r := None;
      for i := 0 to |cs|
        invariant r.None? && FindChallenge(cs, want) == FindChallenge(cs[i..], want)
      {
        if cs[i].kind == want {
          return Some(cs[i]);
        }
        assert cs[i..][1..] == cs[i + 1..];
      }
    }

    method ProcessAuthorization(ghost c0: Config, ghost k: nat, authzURL: string, t: ChallengeType, plugin: string,
                                cleanup: ChallengeCleanup) returns (ok: bool)
      requires Linked(c0) && cleanup.fns == proc.teardowns && proc.env == Setting(plugin) && proc.row.challenge == t
      requires proc.phase == Authorizing(k) && k < |proc.authzs| && proc.authzs[k] == authzURL
      modifies Repr(), cleanup
      ensures Linked(c0) && cleanup.fns == proc.teardowns
      ensures SameCall(old(proc), proc) && proc.row == old(proc.row) && proc.subject == old(proc.subject)
      ensures proc.phase == if ok then NextAuthz(proc, k + 1) else Marking
    {
      hide Linked, After;
      var authz := PostAuthz(c0, authzURL);
      if authz.None? {
        return false;
      }
      if authz.value.status.AuthzValid? {
        return true;
      }
      var ch := PickChallenge(authz.value.challenges, WireChallenge(t));
      if ch.None? {
        return false;
      }
      var token, host := ch.value.token, authz.value.host;
      var presented, _ := ProvisionChallenge(c0, t, token, token + "." + thumb, host, plugin);
      if !presented {
        return false;
      }
      cleanup.Add(t, token, host);
      var acked := PostAck(c0, ch.value.url);
      if !acked {
        return false;
      }
      ok := PollAuthz(c0, k, authzURL);
    }

    method PollAuthz(ghost c0: Config, ghost k: nat, authzURL: string) returns (ok: bool)
      requires Linked(c0) && proc.env.maxPolls == maxPolls && k < |proc.authzs| && proc.authzs[k] == authzURL
      requires proc.phase == NextAuthzPoll(proc, k, 0)
      modifies Repr()
      ensures Linked(c0) && proc == old(proc).(phase := proc.phase)
      ensures proc.phase == if ok then NextAuthz(proc, k + 1) else Marking
    {
      hide Linked, After;
      var i := 0;
      while true
        invariant Linked(c0) && proc == old(proc).(phase := proc.phase) && proc.phase == NextAuthzPoll(proc, k, i)
        decreases maxPolls - i
      {
        if i >= maxPolls {
          return false;
        }
        var cancelled := AwaitTick(c0);
        if cancelled {
          return false;
        }
        var refreshed := PostAuthz(c0, authzURL);
        if refreshed.None? {
          return false;
        }
        match refreshed.value.status {
          case AuthzValid => return true;
          case AuthzInvalid => return false;
          case AuthzOther =>
        }
        i := i + 1;
      }
    }

    /** Step 3: each listed authorisation in turn. */
    method Authorize(ghost c0: Config, authzs: seq<string>, t: ChallengeType, plugin: string, cleanup: ChallengeCleanup)
      returns (ok: bool)
      requires Linked(c0) && cleanup.fns == proc.teardowns && proc.env == Setting(plugin) && proc.row.challenge == t
      requires proc.authzs == authzs && proc.phase == NextAuthz(proc, 0)
      modifies Repr(), cleanup
      ensures Linked(c0) && cleanup.fns == proc.teardowns
      ensures SameCall(old(proc), proc) && proc.row == old(proc.row) && proc.subject == old(proc.subject)
      ensures proc.phase == if ok then Refreshing else Marking
    {
      for k := 0 to |authzs|
        invariant Linked(c0) && cleanup.fns == proc.teardowns && proc.phase == NextAuthz(proc, k)
        invariant SameCall(old(proc), proc) && proc.row == old(proc.row) && proc.subject == old(proc.subject)
      {
        ok := ProcessAuthorization(c0, k, authzs[k], t, plugin, cleanup);
        if !ok {
          return;
        }
      }
      ok := true;
    }

    /** Step 5, one iteration: wait, ask, and record the answer. */
    method AskAgain(ghost c0: Config, ghost i: nat, row0: OrderRow) returns (failed: bool, row: OrderRow)
      requires Linked(c0) && proc.row == row0 && proc.phase == Waiting(i)
      modifies Repr()
      ensures Linked(c0) && proc == old(proc).(phase := proc.phase, row := row)
      ensures proc.phase == if failed then CleanUp(proc, Failed) else PersistPolled(i)
    {
      hide Linked, After;
      row := row0;
      failed := AwaitTick(c0);
      if failed {
        return;
      }
      var refreshed, _ := PostOrder(c0, FetchOrder(row.orderURL));
      if refreshed.None? {
        MarkOrderInvalid(c0, row, "acme: poll order");
        return true, row;
      }
      row := row.(status := refreshed.value.status);
      if refreshed.value.certificate != "" {
        row := row.(certificateURL := refreshed.value.certificate);
      }
    }

    method PollOnce(ghost c0: Config, ghost i: nat, row0: OrderRow) returns (failed: bool, row: OrderRow)
      requires Linked(c0) && proc.row == row0 && proc.phase == Waiting(i)
      modifies Repr()
      ensures Linked(c0) && proc == old(proc).(phase := proc.phase, row := row)
      ensures proc.phase == if failed then CleanUp(proc, Failed) else NextPoll(proc, i + 1)
    {
      hide Linked, After;
      failed, row := AskAgain(c0, i, row0);
      if failed {
        return;
      }
      var _ := WriteRow(c0, row);
      failed := row.status == Invalid;
      if failed {
        MarkOrderInvalid(c0, row, "acme: order invalid");
      }
    }

    /** Step 5: poll until the order is valid. */
    method PollOrder(ghost c0: Config, row0: OrderRow) returns (ok: bool, row: OrderRow)
      requires Linked(c0) && proc.env.maxPolls == maxPolls && proc.row == row0 && proc.phase == NextPoll(proc, 0)
      modifies Repr()
      ensures Linked(c0) && proc == old(proc).(phase := proc.phase, row := row)
      ensures proc.phase == if ok then StartDownload(proc) else CleanUp(proc, Failed)
    {
      hide Linked, After;
      row := row0;
      var i := 0;
      while row.status != Valid
        invariant Linked(c0) && proc == old(proc).(phase := proc.phase, row := row) && proc.phase == NextPoll(proc, i)
        decreases maxPolls - i, row.status != Valid
      {
        if i >= maxPolls {
          MarkOrderInvalid(c0, row, "acme: order poll timeout");
          return false, row;
        }
        var failed;
        failed, row := PollOnce(c0, i, row);
        if failed {
          return false, row;
        }
        i := i + 1;
      }
      ok := true;
    }

    /** Step 4, when the order is ready. */
    method PostFinalize(ghost c0: Config, row0: OrderRow, csr: string) returns (ok: bool, row: OrderRow)
      requires Linked(c0) && proc.row == row0 && proc.phase == Finalizing(csr)
      modifies Repr()
      ensures Linked(c0) && proc == old(proc).(phase := proc.phase, row := row)
      ensures proc.phase == if ok then NextPoll(proc, 0) else CleanUp(proc, Failed)
    {
      hide Linked, After;
      row := row0;
      var doc, _ := PostOrder(c0, Finalize(row.finalizeURL, csr));
      if doc.None? {
        MarkOrderInvalid(c0, row, "acme: finalize");
        return false, row;
      }
      row := row.(status := doc.value.status);
      if doc.value.certificate != "" {
        row := row.(certificateURL := doc.value.certificate);
      }
      var _ := WriteRow(c0, row);
      ok := true;
    }

    /** Step 4: a fresh key and, if the order is ready, its CSR to finalize. */
    method FinalizeOrder(ghost c0: Config, row0: OrderRow) returns (key: Option<Key>, row: OrderRow)
      requires Linked(c0) && proc.row == row0 && proc.phase == MakingKey
      modifies Repr()
      ensures Linked(c0) && proc == old(proc).(phase := proc.phase, row := row, subject := proc.subject)
      ensures key.None? ==> proc.phase == CleanUp(proc, Failed)
      ensures key.Some? ==> proc.phase == NextPoll(proc, 0) && proc.subject.Some? && proc.subject.value.key == key.value
    {
      hide Linked, After, Encoded;
      row := row0;
      var subject := BuildCSR(c0);
      if subject.None? {
        MarkOrderInvalid(c0, row, "acme: create CSR");
        return None, row;
      }
      if row.status == Ready {
        var csr := RawURLEncodeBytes(subject.value.der);
        var ok;
        ok, row := PostFinalize(c0, row, csr);
        if !ok {
          return None, row;
        }
      }
      key := Some(subject.value.key);
    }

    /** Step 6: download the chain and look at its leaf. */
    method FetchCert(ghost c0: Config, row: OrderRow, hostnames: seq<string>, key: Key) returns (cert: Option<Cert>)
      requires Linked(c0) && proc.row == row && proc.hostnames == hostnames && hostnames != []
      requires proc.phase == StartDownload(proc) && proc.subject.Some? && proc.subject.value.key == key
      modifies Repr()
      ensures Linked(c0)
      ensures proc == old(proc).(phase := if cert.Some? then Saving(cert.value) else CleanUp(old(proc), Failed))
    {
      hide Linked, After;
      if row.certificateURL == "" {
        MarkOrderInvalid(c0, row, "acme: order valid but no certificate URL");
        return None;
      }
      var chain := PostDownload(c0, row.certificateURL);
      if chain.None? {
        MarkOrderInvalid(c0, row, "acme: download certificate");
        return None;
      }
      var leaf := ParseLeafOf(c0, chain.value);
      if leaf.None? {
        MarkOrderInvalid(c0, row, "acme: parse leaf");
        return None;
      }
      cert := Some(Cert(Lower(hostnames[0]), chain.value, key, leaf.value, row.id));
    }

    /** Step 7: save the certificate, settle the row. */
    method Collect(ghost c0: Config, row: OrderRow, hostnames: seq<string>, key: Key) returns (o: Outcome)
      requires Linked(c0) && proc.row == row && proc.hostnames == hostnames && hostnames != []
      requires proc.phase == StartDownload(proc) && proc.subject.Some? && proc.subject.value.key == key
      modifies Repr()
      ensures Linked(c0) && proc == old(proc).(phase := CleanUp(proc, o))
    {
      hide Linked, After;
      var cert := FetchCert(c0, row, hostnames, key);
      if cert.None? {
        return Failed;
      }
      var saved := SaveCert(c0, cert.value);
      if !saved {
        return Failed;
      }
      var _ := WriteRow(c0, row.(status := Valid));
      o := Issued(cert.value);
    }

    /** The re-fetch that follows step 3. */
    method ConfirmOrder(ghost c0: Config, row0: OrderRow) returns (ok: bool, row: OrderRow)
      requires Linked(c0) && proc.row == row0 && proc.phase == Refreshing
      modifies Repr()
      ensures Linked(c0) && proc == old(proc).(phase := proc.phase, row := row)
      ensures proc.phase == if ok then MakingKey else CleanUp(proc, Failed)
    {
      hide Linked, After;
      row := row0;
      var doc, _ := PostOrder(c0, FetchOrder(row.orderURL));
      if doc.None? {
        MarkOrderInvalid(c0, row, "acme: refresh order");
        return false, row;
      }
      row := row.(status := doc.value.status);
      if doc.value.finalize != "" {
        row := row.(finalizeURL := doc.value.finalize);
      }
      var _ := WriteRow(c0, row);
      ok := true;
    }

    /** Step 3, with that confirmation. */
    method AuthorizeOrder(ghost c0: Config, row0: OrderRow, authzs: seq<string>, plugin: string,
                          cleanup: ChallengeCleanup)
      returns (ok: bool, row: OrderRow)
      requires Linked(c0) && cleanup.fns == proc.teardowns && proc.env == Setting(plugin)
      requires proc.row == row0 && proc.authzs == authzs && proc.phase == NextAuthz(proc, 0)
      modifies Repr(), cleanup
      ensures Linked(c0) && cleanup.fns == proc.teardowns && SameCall(old(proc), proc) && proc.row == row
      ensures proc.phase == if ok then MakingKey else CleanUp(proc, Failed)
    {
      hide Linked, After;
      row := row0;
      ok := Authorize(c0, authzs, row.challenge, plugin, cleanup);
      if !ok {
        MarkOrderInvalid(c0, row, "acme: authorization");
        return;
      }
      ok, row := ConfirmOrder(c0, row);
    }

    /** driveOrder, before its deferred cleanup. */
    method DriveSteps(ghost c0: Config, row0: OrderRow, authzs: seq<string>, hostnames: seq<string>, plugin: string,
                      cleanup: ChallengeCleanup) returns (o: Outcome)
      requires Linked(c0) && cleanup.fns == proc.teardowns && proc.env == Setting(plugin)
      requires proc.row == row0 && proc.authzs == authzs && proc.hostnames == hostnames && hostnames != []
      requires proc.phase == DriveStart(proc)
      modifies Repr(), cleanup
      ensures Linked(c0) && cleanup.fns == proc.teardowns && proc.env == Setting(plugin)
      ensures proc.phase == CleanUp(proc, o)
    {
      hide Linked, After;
      var row := row0;
      if row.status == Pending {
        var ok;
        ok, row := AuthorizeOrder(c0, row, authzs, plugin, cleanup);
        if !ok {
          return Failed;
        }
      }
      var key;
      key, row := FinalizeOrder(c0, row);
      if key.None? {
        return Failed;
      }
      var ok;
      ok, row := PollOrder(c0, row);
      if !ok {
        return Failed;
      }
      o := Collect(c0, row, hostnames, key.value);
    }

    /** challengeCleanup.run. */
    method RunCleanup(ghost c0: Config, ghost o: Outcome, plugin: string, cleanup: ChallengeCleanup)
      requires Linked(c0) && cleanup.fns == proc.teardowns && proc.env == Setting(plugin)
      requires proc.phase == CleanUp(proc, o)
      modifies Repr()
      ensures Linked(c0) && proc == old(proc).(phase := Done(o))
    {
      hide Linked, After;
      for j := 0 to |cleanup.fns|
        invariant Linked(c0) && cleanup.fns == proc.teardowns && proc == old(proc).(phase := proc.phase)
        invariant proc.phase == if j < |cleanup.fns| then CleaningUp(j, o) else Done(o)
      {
        TearDown(c0, cleanup.fns[j], plugin);
      }
    }

    method DriveOrder(ghost c0: Config, row: OrderRow, authzs: seq<string>, hostnames: seq<string>, plugin: string)
      returns (o: Outcome)
      requires Linked(c0) && proc.teardowns == [] && proc.env == Setting(plugin)
      requires proc.row == row && proc.authzs == authzs && proc.hostnames == hostnames && hostnames != []
      requires proc.phase == DriveStart(proc)
      modifies Repr()
      ensures Linked(c0) && proc.phase == Done(o)
    {
      hide Linked, After;
      var cleanup := new ChallengeCleanup();
      o := DriveSteps(c0, row, authzs, hostnames, plugin, cleanup);
      RunCleanup(c0, o, plugin, cleanup);
    }

    /** Begin a call: its trace is empty and it stands where p says. */
    ghost method Begin(p: Proc) returns (c0: Config)
      requires poster.Valid() && store.nextId > 0
      modifies this`trace, this`proc, this`httpPosts
      ensures c0 == Config(p, store.View(), World()) && proc == p && Linked(c0) && trace == []
    {
      c0 := Config(p, store.View(), World());
      trace, proc, httpPosts := [], p, 0;
    }

    /** Steps 1 and 2 of Order: persist a row, place the order, persist its URL. */
    method PlaceOrder(ghost c0: Config, hostnames: seq<string>, t: ChallengeType)
      returns (ok: bool, row: OrderRow, authzs: seq<string>)
      requires Linked(c0) && proc.phase == Inserting && proc.hostnames == hostnames
      requires proc.row == OrderRow(0, LowerAll(hostnames), Pending, "", "", "", t, "")
      modifies Repr()
      ensures Linked(c0) && proc == old(proc).(phase := proc.phase, row := proc.row, authzs := proc.authzs)
      ensures ok ==> proc.phase == DriveStart(proc) && proc.row == row && proc.authzs == authzs
      ensures !ok ==> proc.phase == CleanUp(proc, Failed)
    {
      hide Linked, After, LowerAll;
      authzs := [];
      row := OrderRow(0, LowerAll(hostnames), Pending, "", "", "", t, "");
      ok, row := InsertRow(c0, row);
      if !ok {
        return;
      }
      var doc, location := PostOrder(c0, NewOrder(hostnames));
      if doc.None? {
        MarkOrderInvalid(c0, row, "acme: newOrder");
        return false, row, authzs;
      }
      row := row.(orderURL := location, finalizeURL := doc.value.finalize, status := doc.value.status);
      ok := WriteRow(c0, row);
      authzs := doc.value.authorizations;
    }

    /** Whether a challenger is configured; an unset type never has one. */
    predicate Wired(t: ChallengeType) {
      t != Unset && t in wired
    }

    method OrderSteps(hostnames: seq<string>, t: ChallengeType, plugin: string) returns (o: Outcome, ghost c0: Config)
      requires poster.Valid() && store.nextId > 0 && hostnames != []
      modifies Repr()
      ensures c0 == Config(StartOrder(hostnames, t, Setting(plugin)), old(store.View()), old(World()))
      ensures Linked(c0)
      ensures Wired(t) ==> proc.phase == Done(o)
      ensures !Wired(t) ==> o == Failed && trace == [] && poster.net == old(poster.net)
    {
      hide Linked, After, LowerAll;
      c0 := Begin(StartOrder(hostnames, t, Setting(plugin)));
      if !Wired(t) {
        return Failed, c0;
      }
      var ok := FetchDirectory(c0);
      if !ok {
        return Failed, c0;
      }
      var row, authzs;
      ok, row, authzs := PlaceOrder(c0, hostnames, t);
      if !ok {
        return Failed, c0;
      }
      o := DriveOrder(c0, row, authzs, hostnames, plugin);
    }

    /** Order: everything the call does, from the first request to the last teardown,
        is one run of the machine, ended, within a fixed number of HTTP requests. A
        challenge type without a challenger is refused before anything happens. */
    method Order(hostnames: seq<string>, t: ChallengeType, plugin: string) returns (o: Outcome, ghost c0: Config)
      requires poster.Valid() && store.nextId > 0 && hostnames != []
      modifies Repr(), ledger
      ensures ledger.calls == old(ledger.calls) + [Asked(hostnames, t, plugin)]
      ensures c0 == Config(StartOrder(hostnames, t, Env(maxPolls, plugin, thumb)), old(store.View()), old(World()))
      ensures Linked(c0)
      ensures t != Unset && t in wired ==> proc.phase == Done(o)
      ensures t == Unset || t !in wired ==> o == Failed && trace == [] && poster.net == old(poster.net)
      ensures httpPosts <= 3 * (|proc.authzs| * (maxPolls + 2) + maxPolls + 4)
    {
      hide Linked, LowerAll;
      ledger.calls := ledger.calls + [Asked(hostnames, t, plugin)];
      o, c0 := OrderSteps(hostnames, t, plugin);
      Bounded(c0);
    }

    /** The poll limit and the number of authorisations bound the requests of a call. */
    lemma Bounded(c0: Config)
      requires Linked(c0) && c0.proc.env.maxPolls == maxPolls && (Fresh(c0) || trace == [])
      ensures httpPosts <= 3 * (|proc.authzs| * (maxPolls + 2) + maxPolls + 4)
    {
      hide Run, IsRun, Fresh;
      if trace != [] {
        CallBounded(c0, trace);
      }
    }

    method ResumeSteps(row0: OrderRow) returns (o: Outcome, ghost c0: Config)
      requires poster.Valid() && store.nextId > 0 && row0.hostnames != []
      modifies Repr()
      ensures c0 == Config(StartResume(row0, Setting("")), old(store.View()), old(World()))
      ensures Linked(c0)
      ensures Wired(row0.challenge) ==> proc.phase == Done(o)
      ensures row0.orderURL == "" || !Wired(row0.challenge) ==>
                o == Failed && trace == [] && poster.net == old(poster.net)
    {
      hide Linked, After;
      c0 := Begin(StartResume(row0, Setting("")));
      if row0.orderURL == "" || !Wired(row0.challenge) {
        return Failed, c0;
      }
      var row := row0;
      var doc, _ := PostOrder(c0, FetchOrder(row.orderURL));
      if doc.None? {
        return Failed, c0;
      }
      row := row.(status := doc.value.status);
      if doc.value.finalize != "" {
        row := row.(finalizeURL := doc.value.finalize);
      }
      var ok := WriteRow(c0, row);
      if !ok {
        return Failed, c0;
      }
      o := DriveOrder(c0, row, doc.value.authorizations, row.hostnames, "");
    }

    /** resumeOrder: the same of a stored row. */
    method ResumeOrder(row0: OrderRow) returns (o: Outcome, ghost c0: Config)
      requires poster.Valid() && store.nextId > 0 && row0.hostnames != []
      modifies Repr()
      ensures c0 == Config(StartResume(row0, Env(maxPolls, "", thumb)), old(store.View()), old(World()))
      ensures Linked(c0)
      ensures row0.challenge != Unset && row0.challenge in wired ==> proc.phase == Done(o)
      ensures row0.orderURL == "" || row0.challenge == Unset || row0.challenge !in wired ==>
                o == Failed && trace == [] && poster.net == old(poster.net)
      ensures httpPosts <= 3 * (|proc.authzs| * (maxPolls + 2) + maxPolls + 4)
    {
      hide Linked;
      o, c0 := ResumeSteps(row0);
      Bounded(c0);
    }
  }
}
