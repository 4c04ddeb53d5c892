/** EnsureCert, runRenewalPass and resumeInFlightOrders of internal/acme/client.go.
    Times are in seconds. */
module AcmeRenewal {
  import opened AcmeTypes
  import opened AcmeMachine
  import opened AcmeClient
  import opened AcmeSolo
  import opened Clocks
  import AcmeSystem

  const RENEWAL_THRESHOLD: int := 30 * 24 * 60 * 60

  datatype Ensured =
    | NoHostnames
    | ChallengeUnset
    | StillFresh
    | LookupFailed
    | NotRegistered
    | Ordered(outcome: Outcome)

  /** The pass turned to the server, or the store stopped it. */
  predicate Attempted(r: Ensured) {
    r.LookupFailed? || r.NotRegistered? || r.Ordered?
  }

  // -- What a renewal asks for ----------------------------------------------

  /** The hosts and challenge of the order a certificate came from; its own name and
      http-01 when it came from none. */
  function OriginOf(st: Store, cert: Cert): (seq<string>, ChallengeType) {
    if cert.orderID != 0 && cert.orderID in st.orders
    then (st.orders[cert.orderID].hostnames, st.orders[cert.orderID].challenge)
    else ([cert.hostname], Http01)
  }

  /** A renewal asks for what the certificate was first obtained for, without a plugin; if
      the lookup of its order failed, for its own name over http-01. */
  predicate AsksFor(st: Store, cert: Cert, a: Asked, looked: bool) {
    || a == Asked(OriginOf(st, cert).0, OriginOf(st, cert).1, "")
    || (!looked && a == Asked([cert.hostname], Http01, ""))
  }

  /** The calls of Order for the certificates that got so far, in order. */
  predicate AsksForAll(st: Store, certs: seq<Cert>, results: seq<Ensured>, log: seq<Asked>, looked: bool)
    requires |certs| == |results|
  {
    if certs == [] then log == []
    else
      var n := |certs| - 1;
      if results[n].Ordered? then
        && log != [] && AsksFor(st, certs[n], log[|log| - 1], looked)
        && AsksForAll(st, certs[..n], results[..n], log[..|log| - 1], looked)
      else AsksForAll(st, certs[..n], results[..n], log, looked)
  }

  lemma NoneAsked(st: Store)
    ensures AsksForAll(st, [], [], [], true) && KeptBut(st, st, {})
  {
  }

  lemma AsksOn(st: Store, certs: seq<Cert>, results: seq<Ensured>, log: seq<Asked>, looked: bool, cert: Cert,
               r: Ensured, more: seq<Asked>, looked': bool)
    requires |certs| == |results| && AsksForAll(st, certs, results, log, looked) && (looked' ==> looked)
    requires if r.Ordered? then |more| == 1 && AsksFor(st, cert, more[0], looked') else more == []
    ensures AsksForAll(st, certs + [cert], results + [r], log + more, looked')
  {
    AsksWeaken(st, certs, results, log, looked, looked');
    assert (certs + [cert])[..|certs|] == certs && (results + [r])[..|results|] == results;
    assert more == [] ==> log + more == log;
    assert |more| == 1 ==> (log + more)[..|log|] == log;
  }

  lemma {:induction false} AsksWeaken(st: Store, certs: seq<Cert>, results: seq<Ensured>, log: seq<Asked>, looked: bool,
                                      looked': bool)
    requires |certs| == |results| && AsksForAll(st, certs, results, log, looked) && (looked' ==> looked)
    ensures AsksForAll(st, certs, results, log, looked')
  {
    if certs != [] {
      var n := |certs| - 1;
      AsksWeaken(st, certs[..n], results[..n], if results[n].Ordered? then log[..|log| - 1] else log, looked, looked');
    }
  }

  /** Certificates come from rows that stay, so it does not matter when one is looked up. */
  lemma OriginKept(st: Store, st': Store, cert: Cert, a: Asked, looked: bool, looked': bool)
    requires Sound(st) && KeptBut(st, st', {}) && AsksFor(st', cert, a, looked) && (looked' ==> looked)
    requires cert.hostname in st.certs && st.certs[cert.hostname] == cert
    ensures AsksFor(st, cert, a, looked')
  {
    SoundOrigin(st, cert.hostname);
  }

  lemma SoundOrigin(st: Store, h: string)
    requires Sound(st) && h in st.certs
    ensures st.certs[h].orderID == 0 || st.certs[h].orderID in st.orders
  {
  }

  /** One certificate more. */
  lemma AsksNext(st: Store, st': Store, certs: seq<Cert>, i: nat, results: seq<Ensured>, r: Ensured, log0: seq<Asked>,
                 log: seq<Asked>, log': seq<Asked>, before: bool, now: bool, all: bool)
    requires i < |certs| && |results| == i && log0 <= log <= log' && (all ==> before && now)
    requires AsksForAll(st, certs[..i], results, log[|log0|..], before)
    requires Sound(st) && KeptBut(st, st', {})
    requires certs[i].hostname in st.certs && st.certs[certs[i].hostname] == certs[i]
    requires |log'| == |log| + if r.Ordered? then 1 else 0
    requires r.Ordered? ==> AsksFor(st', certs[i], log'[|log|], now)
    ensures AsksForAll(st, certs[..i + 1], results + [r], log'[|log0|..], all)
  {
    hide Sound, KeptBut, AsksFor, AsksForAll;
    if r.Ordered? {
      OriginKept(st, st', certs[i], log'[|log|], now, all);
    }
    AsksOn(st, certs[..i], results, log[|log0|..], before, certs[i], r, log'[|log|..], all);
    assert log[|log0|..] + log'[|log|..] == log'[|log0|..];
    assert certs[..i] + [certs[i]] == certs[..i + 1];
  }

  /** A new store is sound. */
  lemma EmptySound()
    ensures Sound(Store(map[], map[], 1))
  {
    assert AcmeSystem.StoreOk(Store(map[], map[], 1), map[]);
  }

  ghost predicate FinishedKept(st: Store, st': Store) {
    forall id :: id in st.orders && !AcmeSystem.InFlight(st.orders[id].status) ==>
      id in st'.orders && st'.orders[id] == st.orders[id]
  }

  /** What the invariant says of one certificate's order, and of one row. */
  lemma SoundCert(st: Store, h: string)
    requires Sound(st) && h in st.certs
    ensures st.certs[h].hostname == h == Lower(h)
    ensures var id := st.certs[h].orderID;
            id in st.orders && id != 0 ==>
              && st.orders[id].challenge != Unset
              && st.orders[id].hostnames != []
              && Lower(st.orders[id].hostnames[0]) == h
  {
  }

  lemma SoundRows(st: Store)
    requires Sound(st)
    ensures st.nextId > 0
    ensures forall id :: id in st.orders ==> st.orders[id].id == id && st.orders[id].hostnames != []
    ensures forall h :: h in st.certs ==> st.certs[h].hostname == h
  {
  }

  /** Rows keep as they are but for those named. */
  predicate KeptBut(st: Store, st': Store, done: set<nat>) {
    forall id :: id in st.orders && id !in done ==> id in st'.orders && st'.orders[id] == st.orders[id]
  }

  lemma KeptOn(st: Store, st': Store, st'': Store, done: seq<nat>, id: nat, host: string)
    requires KeptBut(st, st', Elements(done)) && Only(st', st'', id, host)
    ensures KeptBut(st, st'', Elements(done + [id]))
  {
    assert Elements(done + [id]) == Elements(done) + {id};
  }

  /** The listing of a bucket, of which the first rows have been resumed. */
  predicate Bucket(st: Store, s: Status, rows: seq<OrderRow>) {
    && (forall i :: 0 <= i < |rows| ==>
        rows[i].id in st.orders && st.orders[rows[i].id] == rows[i] && rows[i].status == s)
    && (forall i, j :: 0 <= i < j < |rows| ==> rows[i].id != rows[j].id)
    && (forall id :: id in st.orders && st.orders[id].status == s ==> st.orders[id].id == id && st.orders[id] in rows)
  }

  /** resumeOrder takes the row up: it has an order URL, and its type a challenger. */
  predicate TakesUp(wired: set<ChallengeType>, row: OrderRow) {
    row.orderURL != "" && row.challenge != Unset && row.challenge in wired
  }

  /** The rows of a status have been dealt with: those in done were taken up, those in
      left refused at once. */
  predicate Dealt(st: Store, s: Status, wired: set<ChallengeType>, done: seq<nat>, left: seq<nat>) {
    && (forall id :: id in done ==> id in st.orders && st.orders[id].status == s && TakesUp(wired, st.orders[id]))
    && (forall id :: id in left ==> id in st.orders && st.orders[id].status == s && !TakesUp(wired, st.orders[id]))
  }

  predicate AllDealt(st: Store, s: Status, wired: set<ChallengeType>, done: seq<nat>, left: seq<nat>) {
    forall id :: id in st.orders && st.orders[id].status == s ==>
      if TakesUp(wired, st.orders[id]) then id in done else id in left
  }

  /** The first n rows of a listing have been dealt with. */
  predicate DealtTo(rows: seq<OrderRow>, n: nat, wired: set<ChallengeType>, done: seq<nat>, left: seq<nat>)
    requires n <= |rows|
  {
    && (forall i :: 0 <= i < n ==> if TakesUp(wired, rows[i]) then rows[i].id in done else rows[i].id in left)
    && (forall id :: id in done ==> exists i :: 0 <= i < n && rows[i].id == id && TakesUp(wired, rows[i]))
    && (forall id :: id in left ==> exists i :: 0 <= i < n && rows[i].id == id && !TakesUp(wired, rows[i]))
  }

  lemma DealtOn(rows: seq<OrderRow>, n: nat, wired: set<ChallengeType>, done: seq<nat>, left: seq<nat>, done': seq<nat>,
                left': seq<nat>)
    requires n < |rows| && DealtTo(rows, n, wired, done, left)
    requires done' == (if TakesUp(wired, rows[n]) then done + [rows[n].id] else done)
    requires left' == (if TakesUp(wired, rows[n]) then left else left + [rows[n].id])
    ensures DealtTo(rows, n + 1, wired, done', left')
  {
    hide TakesUp;
    forall id | id in done' ensures exists i :: 0 <= i < n + 1 && rows[i].id == id && TakesUp(wired, rows[i]) {
      if id in done {
        var i :| 0 <= i < n && rows[i].id == id && TakesUp(wired, rows[i]);
      } else {
        assert rows[n].id == id;
      }
    }
    forall id | id in left' ensures exists i :: 0 <= i < n + 1 && rows[i].id == id && !TakesUp(wired, rows[i]) {
      if id in left {
        var i :| 0 <= i < n && rows[i].id == id && !TakesUp(wired, rows[i]);
      } else {
        assert rows[n].id == id;
      }
    }
  }

  lemma BucketDealt(st: Store, s: Status, rows: seq<OrderRow>, n: nat, wired: set<ChallengeType>, done: seq<nat>,
                    left: seq<nat>)
    requires Bucket(st, s, rows) && n <= |rows| && DealtTo(rows, n, wired, done, left)
    ensures Dealt(st, s, wired, done, left) && (n == |rows| ==> AllDealt(st, s, wired, done, left))
  {
    hide TakesUp;
    forall id | n == |rows| && id in st.orders && st.orders[id].status == s
      ensures if TakesUp(wired, st.orders[id]) then id in done else id in left
    {
      var i :| 0 <= i < |rows| && rows[i] == st.orders[id];
    }
  }

  /** No row is resumed twice, so the next one is stored as it was listed. */
  lemma StillListed(st: Store, st': Store, s: Status, rows: seq<OrderRow>, n: nat, wired: set<ChallengeType>,
                    done: seq<nat>, left: seq<nat>)
    requires Bucket(st, s, rows) && n < |rows| && DealtTo(rows, n, wired, done, left)
             && KeptBut(st, st', Elements(done))
    ensures rows[n].id in st'.orders && st'.orders[rows[n].id] == rows[n]
  {
    hide TakesUp;
    assert rows[n].id !in done;
  }

  lemma NoRowZero(st: Store, st': Store, host: string)
    requires Sound(st) && Only(st, st', 0, host)
    ensures KeptBut(st, st', {})
  {
  }

  lemma NothingKept(st: Store)
    ensures KeptBut(st, st, Elements([]))
  {
  }

  lemma KeptTwice(st: Store, st': Store, st'': Store)
    requires KeptBut(st, st', {}) && KeptBut(st', st'', {})
    ensures KeptBut(st, st'', {})
  {
  }

  function Elements(ids: seq<nat>): set<nat> {
    set id | id in ids
  }

  class Renewer {
    const client: Client
    const clock: Clock
    // For the record: registrations client.ledger.calls for, calls of Order with and without a
    // challenger for their type, rows that resumeOrder took up and rows it refused at
    // once, how often the store or the server refused, and how often the order of a
    // certificate could not be looked up.
    ghost var registrations: nat
    ghost var orders: nat
    ghost var unwired: nat
    ghost var resumed: seq<nat>
    ghost var skipped: seq<nat>
    ghost var refused: nat
    ghost var unread: nat

    constructor (client: Client, clock: Clock)
      requires client.poster.Valid() && Sound(client.store.View())
      ensures Valid() && this.client == client && this.clock == clock
      ensures registrations == orders == unwired == refused == unread == 0 && resumed == skipped == []
    {
      this.client, this.clock := client, clock;
      registrations, orders, unwired, refused := 0, 0, 0, 0;
      resumed, skipped, unread := [], [], 0;
    }

    ghost function Repr(): set<object> {
      client.Repr() + {this, clock, client.ledger}
    }

    ghost predicate Valid()
      reads Repr()
    {
      client.poster.Valid() && Sound(client.store.View())
    }

    ghost function View(): Store
      reads client.store
    {
      client.store.View()
    }

    /** Finding or creating the account; it touches neither orders nor certificates. */
    method Register() returns (ok: bool)
      modifies this`registrations, this`refused
      ensures registrations == old(registrations) + 1 && refused == old(refused) + if ok then 0 else 1
    {
      ok := *;
      registrations, refused := registrations + 1, refused + if ok then 0 else 1;
    }

    method FindCert(host: string) returns (r: Lookup<Cert>)
      modifies this`refused
      ensures r.Found? ==> Lower(host) in client.store.certs && r.value == client.store.certs[Lower(host)]
      ensures r.NotFound? ==> Lower(host) !in client.store.certs
      ensures refused == old(refused) + if r.Broken? then 1 else 0
    {
      r := client.store.GetCert(host);
      refused := refused + if r.Broken? then 1 else 0;
    }

    method ListExpiring(cutoff: int) returns (ok: bool, cs: seq<Cert>)
      requires forall h :: h in client.store.certs ==> client.store.certs[h].hostname == h
      modifies this`refused
      ensures ok ==> forall i :: 0 <= i < |cs| ==>
                cs[i].hostname in client.store.certs && client.store.certs[cs[i].hostname] == cs[i]
      ensures ok ==> forall i, j :: 0 <= i < j < |cs| ==> cs[i].hostname != cs[j].hostname
      ensures ok ==> forall h :: h in client.store.certs ==>
                (client.store.certs[h] in cs <==> client.store.certs[h].notAfter < cutoff)
      ensures refused == old(refused) + if ok then 0 else 1
    {
      ok, cs := client.store.ListCertsExpiringBefore(cutoff);
      refused := refused + if ok then 0 else 1;
    }

    method ListInStatus(s: Status) returns (ok: bool, rows: seq<OrderRow>)
      requires Valid()
      modifies this`refused
      ensures Valid() && (ok ==> Bucket(View(), s, rows))
      ensures refused == old(refused) + if ok then 0 else 1
    {
      SoundRows(View());
      ok, rows := client.store.ListOrdersByStatus(s);
      refused := refused + if ok then 0 else 1;
    }

    /** Order, and what it may do to the store: nothing at all, and nothing is sent, if no
        challenger is configured for the type. */
    method PlaceOrder(hostnames: seq<string>, t: ChallengeType, plugin: string) returns (o: Outcome)
      requires Valid() && hostnames != [] && t != Unset
      modifies client.Repr(), client.ledger, this`orders, this`unwired
      ensures client.ledger.calls == old(client.ledger.calls) + [Asked(hostnames, t, plugin)]
      ensures Valid() && Only(old(View()), View(), 0, Lower(hostnames[0]))
      ensures orders == old(orders) + if t in client.wired then 1 else 0
      ensures unwired == old(unwired) + if t in client.wired then 0 else 1
      ensures t in client.wired ==> client.proc.phase == Done(o)
      ensures t !in client.wired ==> o == Failed && client.poster.net == old(client.poster.net)
    {
      hide Run, IsRun, StartOrder, Only;
      SoundRows(View());
      ghost var c0;
      o, c0 := client.Order(hostnames, t, plugin);
      StartsForHost(hostnames, t, client.Setting(plugin));
      OrderChanges(c0, client.trace);
      if t in client.wired {
        orders := orders + 1;
      } else {
        unwired := unwired + 1;
      }
    }

    method RegisterAndOrder(hostnames: seq<string>, t: ChallengeType, plugin: string) returns (r: Ensured)
      requires Valid() && hostnames != [] && t != Unset
      modifies client.Repr(), client.ledger, this`registrations, this`orders, this`unwired, this`refused
      ensures Valid() && (r.NotRegistered? || r.Ordered?)
      ensures client.ledger.calls == old(client.ledger.calls) + if r.Ordered? then [Asked(hostnames, t, plugin)] else []
      ensures registrations == old(registrations) + 1
      ensures orders == old(orders) + if r.Ordered? && t in client.wired then 1 else 0
      ensures unwired == old(unwired) + if r.Ordered? && t !in client.wired then 1 else 0
      ensures refused == old(refused) + if r.NotRegistered? then 1 else 0
      ensures r.Ordered? && t !in client.wired ==> r.outcome == Failed
      ensures r.NotRegistered? ==> View() == old(View())
      ensures Only(old(View()), View(), 0, Lower(hostnames[0]))
    {
      hide Sound, Lower;
      var registered := Register();
      if !registered {
        return NotRegistered;
      }
      var o := PlaceOrder(hostnames, t, plugin);
      r := Ordered(o);
    }

    /** A certificate is left alone, and the server not contacted, exactly when more
        than thirty days remain of it; otherwise the account is registered and the
        order pipeline runs, unless the store or the server refuses, or no challenger is
        configured for the type. */
    method EnsureCert(hostnames: seq<string>, t: ChallengeType, plugin: string) returns (r: Ensured)
      requires Valid()
      modifies client.Repr(), client.ledger, clock, this`registrations, this`orders, this`unwired, this`refused
      ensures Valid() && clock.now >= old(clock.now)
      ensures r.NoHostnames? <==> hostnames == []
      ensures r.ChallengeUnset? <==> hostnames != [] && t == Unset
      ensures hostnames != [] && t != Unset && !r.LookupFailed? ==>
                (r.StillFresh? <==>
                 && Lower(hostnames[0]) in old(client.store.certs)
                 && old(client.store.certs)[Lower(hostnames[0])].notAfter - clock.now > 2_592_000)
      ensures client.ledger.calls == old(client.ledger.calls) + if r.Ordered? then [Asked(hostnames, t, plugin)] else []
      ensures registrations == old(registrations) + if r.Ordered? || r.NotRegistered? then 1 else 0
      ensures orders == old(orders) + if r.Ordered? && t in client.wired then 1 else 0
      ensures unwired == old(unwired) + if r.Ordered? && t !in client.wired then 1 else 0
      ensures refused == old(refused) + if r.LookupFailed? || r.NotRegistered? then 1 else 0
      ensures r.Ordered? && t !in client.wired ==> r.outcome == Failed
      ensures r.StillFresh? || r.NoHostnames? || r.ChallengeUnset? || r.LookupFailed? ==>
                client.poster.net == old(client.poster.net)
      ensures !r.Ordered? ==> View() == old(View())
      ensures hostnames != [] ==> Only(old(View()), View(), 0, Lower(hostnames[0]))
    {
      hide Sound, Lower;
      if hostnames == [] {
        return NoHostnames;
      }
      if t == Unset {
        return ChallengeUnset;
      }
      var primary := Lower(hostnames[0]);
      var now := clock.Now();
      LowerTwice(hostnames[0]);
      var existing := FindCert(primary);
      if existing.Found? {
        if existing.value.notAfter - now > RENEWAL_THRESHOLD {
          return StillFresh;
        }
      } else if !existing.NotFound? {
        return LookupFailed;
      }
      r := RegisterAndOrder(hostnames, t, plugin);
    }

    /** How a certificate was first obtained: the hosts and challenge of its order, or
        its own name and http-01 when it has none, or that cannot be looked up. */
    method Origin(cert: Cert) returns (hostnames: seq<string>, t: ChallengeType)
      requires Valid() && cert.hostname in client.store.certs && client.store.certs[cert.hostname] == cert
      modifies this`unread
      ensures Valid() && hostnames != [] && Lower(hostnames[0]) == cert.hostname && t != Unset
      ensures unread == old(unread) && cert.orderID != 0 && cert.orderID in client.store.orders ==>
                hostnames == client.store.orders[cert.orderID].hostnames
                && t == client.store.orders[cert.orderID].challenge
      ensures unread == old(unread) && (cert.orderID == 0 || cert.orderID !in client.store.orders) ==>
                hostnames == [cert.hostname] && t == Http01
      ensures unread > old(unread) ==> cert.orderID != 0 && hostnames == [cert.hostname] && t == Http01
      ensures unread >= old(unread)
    {
      SoundCert(View(), cert.hostname);
      hostnames, t := [cert.hostname], Http01;
      if cert.orderID != 0 {
        var o := client.store.GetOrder(cert.orderID);
        if o.Found? {
          t := o.value.challenge;
          if |o.value.hostnames| > 0 {
            hostnames := o.value.hostnames;
          }
        }
        unread := unread + if o.Broken? then 1 else 0;
      }
    }

    /** Renew one certificate that the pass selected. */
    method Renew(cert: Cert) returns (r: Ensured)
      requires Valid() && cert.hostname in client.store.certs && client.store.certs[cert.hostname] == cert
      requires cert.notAfter < clock.now + 2_592_000
      modifies client.Repr(), client.ledger, clock
      modifies this`registrations, this`orders, this`unwired, this`refused, this`unread
      ensures Valid() && clock.now >= old(clock.now)
      ensures Attempted(r) && unread >= old(unread)
      ensures old(client.ledger.calls) <= client.ledger.calls
      ensures |client.ledger.calls| == |old(client.ledger.calls)| + if r.Ordered? then 1 else 0
      ensures r.Ordered? ==>
                AsksFor(old(View()), cert, client.ledger.calls[|old(client.ledger.calls)|], unread == old(unread))
      ensures r.Ordered? && unread == old(unread) && cert.orderID != 0 && cert.orderID in old(client.store.orders) ==>
                var row := old(client.store.orders)[cert.orderID];
                client.ledger.calls[|old(client.ledger.calls)|] == Asked(row.hostnames, row.challenge, "")
      ensures (orders - old(orders)) + (unwired - old(unwired)) == if r.Ordered? then 1 else 0
      ensures orders >= old(orders) && unwired >= old(unwired)
      ensures refused == old(refused) + if r.Ordered? then 0 else 1
      ensures Only(old(View()), View(), 0, cert.hostname)
    {
      hide Sound, Only;
      var hostnames, t := Origin(cert);
      r := EnsureCert(hostnames, t, "");
    }

    /** The pass selects exactly the certificates within the threshold of expiry, and for
        each of them Order runs, or is called for a type without a challenger, or the
        store or the server refused: none is judged fresh, and none has no type set. Order
        is called with the hosts and the challenge of the order each came from. */
    method RenewExpiring() returns (ok: bool, cutoff: int, selected: seq<Cert>, results: seq<Ensured>)
      requires Valid()
      modifies client.Repr(), client.ledger, clock
      modifies this`registrations, this`orders, this`unwired, this`refused, this`unread
      ensures Valid() && old(clock.now) + 2_592_000 <= cutoff <= clock.now + 2_592_000
      ensures old(client.ledger.calls) <= client.ledger.calls && unread >= old(unread)
      ensures ok ==> |results| == |selected|
      ensures ok ==> AsksForAll(old(View()), selected, results, client.ledger.calls[|old(client.ledger.calls)|..],
                                unread == old(unread))
      ensures !ok ==> client.ledger.calls == old(client.ledger.calls)
      ensures ok ==> forall h :: h in old(client.store.certs) ==>
                (old(client.store.certs)[h] in selected <==> old(client.store.certs)[h].notAfter < cutoff)
      ensures ok ==> |results| == |selected| && forall i :: 0 <= i < |results| ==> Attempted(results[i])
      ensures ok ==> (orders - old(orders)) + (unwired - old(unwired)) + (refused - old(refused)) == |selected|
      ensures unwired >= old(unwired) && refused >= old(refused) && (!ok ==> refused > old(refused))
      ensures KeptBut(old(View()), View(), {})
    {
      hide Sound, Only, KeptBut, AsksForAll, AsksFor, OriginOf, Attempted;
      var now := clock.Now();
      cutoff, results := now + RENEWAL_THRESHOLD, [];
      SoundRows(View());
      NoneAsked(View());
      ok, selected := ListExpiring(cutoff);
      if !ok {
        return;
      }
      assert client.ledger.calls[|old(client.ledger.calls)|..] == [];
      for i := 0 to |selected|
        invariant Valid() && clock.now >= now && |results| == i && KeptBut(old(View()), View(), {})
        invariant old(client.ledger.calls) <= client.ledger.calls && unread >= old(unread)
        invariant AsksForAll(old(View()), selected[..i], results,
                             client.ledger.calls[|old(client.ledger.calls)|..], unread == old(unread))
        invariant forall j :: 0 <= j < |selected| ==>
                    selected[j].hostname in old(client.store.certs)
                    && old(client.store.certs)[selected[j].hostname] == selected[j]
        invariant forall j :: 0 <= j < i ==> Attempted(results[j])
        invariant (orders - old(orders)) + (unwired - old(unwired)) + (refused - old(refused)) == i
        invariant unwired >= old(unwired) && refused >= old(refused)
        invariant forall j :: i <= j < |selected| ==>
                    && selected[j].hostname in client.store.certs
                    && client.store.certs[selected[j].hostname] == selected[j]
        invariant forall j :: 0 <= j < |selected| ==> selected[j].notAfter < cutoff
      {
        ghost var before, log, missed := View(), client.ledger.calls, unread;
        var r := Renew(selected[i]);
        AsksNext(old(View()), before, selected, i, results, r, old(client.ledger.calls), log, client.ledger.calls,
                 missed == old(unread), unread == missed, unread == old(unread));
        results := results + [r];
        NoRowZero(before, View(), selected[i].hostname);
        KeptTwice(old(View()), before, View());
        OthersKept(before, View(), selected, i);
      }
      assert selected[..|selected|] == selected;
    }

    /** Resume one row that the store still holds as listed. One without an order URL, or
        of a type without a challenger, is refused at once, nothing sent and nothing
        written. */
    method Resume(row: OrderRow) returns (o: Outcome)
      requires Valid() && row.id in client.store.orders && client.store.orders[row.id] == row
      modifies client.Repr(), this`resumed, this`skipped
      ensures Valid() && row.hostnames != [] && Only(old(View()), View(), row.id, Lower(row.hostnames[0]))
      ensures row.orderURL != "" && row.challenge != Unset && row.challenge in client.wired ==>
                resumed == old(resumed) + [row.id] && skipped == old(skipped) && client.proc.phase == Done(o)
      ensures row.orderURL == "" || row.challenge == Unset || row.challenge !in client.wired ==>
                && resumed == old(resumed) && skipped == old(skipped) + [row.id] && o == Failed
                && View() == old(View()) && client.poster.net == old(client.poster.net)
    {
      hide Run, IsRun, StartResume, Only;
      SoundRows(View());
      ghost var c0;
      o, c0 := client.ResumeOrder(row);
      ResumeChanges(c0, client.trace, row, client.Setting(""));
      if TakesUp(client.wired, row) {
        resumed := resumed + [row.id];
      } else {
        skipped := skipped + [row.id];
        RunNothing(c0);
      }
    }

    /** One bucket: resumeOrder is called for every row with the status, as it was listed,
        since no resume changes another row; and only the rows it takes up change. */
    method ResumeBucket(s: Status) returns (ok: bool, ghost done: seq<nat>, ghost left: seq<nat>)
      requires Valid() && AcmeSystem.InFlight(s)
      modifies client.Repr(), this`registrations, this`resumed, this`skipped, this`refused
      ensures Valid() && resumed == old(resumed) + done && skipped == old(skipped) + left
      ensures KeptBut(old(View()), View(), Elements(done))
      ensures Dealt(old(View()), s, client.wired, done, left)
      ensures ok ==> AllDealt(old(View()), s, client.wired, done, left)
      ensures refused >= old(refused) && (!ok ==> refused > old(refused))
    {
      hide Sound, Only, KeptBut, Elements, Bucket, Dealt, AllDealt, DealtTo;
      ghost var st0 := View();
      done, left := [], [];
      NothingKept(st0);
      NothingDealt(st0, s, client.wired);
      var rows;
      ok, rows := ListInStatus(s);
      if !ok {
        return;
      }
      NoneDealt(rows, client.wired);
      for i := 0 to |rows|
        invariant Valid() && ok && refused == old(refused)
        invariant resumed == old(resumed) + done && skipped == old(skipped) + left
        invariant i <= |rows| && DealtTo(rows, i, client.wired, done, left) && KeptBut(st0, View(), Elements(done))
      {
        ok := Register();
        if !ok {
          BucketDealt(st0, s, rows, i, client.wired, done, left);
          return;
        }
        ghost var before, done0, left0 := View(), done, left;
        StillListed(st0, before, s, rows, i, client.wired, done, left);
        var _ := Resume(rows[i]);
        if TakesUp(client.wired, rows[i]) {
          KeptOn(st0, before, View(), done, rows[i].id, Lower(rows[i].hostnames[0]));
          done := done + [rows[i].id];
        } else {
          left := left + [rows[i].id];
        }
        DealtOn(rows, i, client.wired, done0, left0, done, left);
      }
      BucketDealt(st0, s, rows, |rows|, client.wired, done, left);
    }

    /** resumeOrder is called for every row in flight, unless something refuses: it takes up
        exactly those that have an order URL and a challenger, and only these change. */
    method ResumeInFlightOrders() returns (ok: bool, ghost done: seq<nat>, ghost left: seq<nat>)
      requires Valid()
      modifies client.Repr(), this`registrations, this`resumed, this`skipped, this`refused
      ensures Valid() && resumed == old(resumed) + done && skipped == old(skipped) + left
      ensures KeptBut(old(View()), View(), Elements(done)) && OnlyTakenUp(old(View()), client.wired, done)
      ensures FinishedKept(old(View()), View())
      ensures ok ==> AllCalled(old(View()), client.wired, done, left)
      ensures ok ==> forall id :: id in old(View()).orders ==>
                old(View()).orders[id].status in {Pending, Ready, Processing} ==> id in done || id in left
      ensures refused >= old(refused) && (!ok ==> refused > old(refused))
    {
      hide Sound, Elements, KeptBut, Dealt, AllDealt, OnlyTakenUp, AllCalled, FinishedKept;
      ghost var st0, more, also := View(), [], [];
      NothingKept(st0);
      NothingCalled(st0, client.wired);
      ok, done, left := ResumeBucket(Pending);
      ghost var st1, first, first' := View(), done, left;
      BucketAdded(st0, st0, st1, Pending, client.wired, [], done, left);
      assert [] + done == done;
      if !ok {
        return;
      }
      ok, more, also := ResumeBucket(Ready);
      ghost var st2, second, second' := View(), more, also;
      BucketAdded(st0, st1, st2, Ready, client.wired, done, more, also);
      done, left := done + more, left + also;
      if !ok {
        return;
      }
      ok, more, also := ResumeBucket(Processing);
      BucketAdded(st0, st2, View(), Processing, client.wired, done, more, also);
      if ok {
        EveryRowCalled(st0, st1, st2, client.wired, first, first', second, second', more, also);
        CalledPlainly(st0, client.wired, done + more, left + also);
      }
      done, left := done + more, left + also;
    }

    /** The whole pass: Order runs for whatever was expiring, unless its type has no
        challenger; resumeOrder takes up whatever was in flight and has an order URL and a
        challenger; unless something refuses. No other row is touched. */
    method RunRenewalPass() returns (ok: bool, cutoff: int, selected: seq<Cert>, results: seq<Ensured>)
      requires Valid()
      modifies Repr()
      ensures Valid() && old(clock.now) + 2_592_000 <= cutoff <= clock.now + 2_592_000
      ensures old(client.ledger.calls) <= client.ledger.calls && unread >= old(unread)
      ensures ok ==> |results| == |selected|
      ensures ok ==> AsksForAll(old(View()), selected, results, client.ledger.calls[|old(client.ledger.calls)|..],
                                unread == old(unread))
      ensures ok ==> forall h :: h in old(client.store.certs) ==>
                (old(client.store.certs)[h] in selected <==> old(client.store.certs)[h].notAfter < cutoff)
      ensures ok ==> |results| == |selected| && forall i :: 0 <= i < |results| ==> Attempted(results[i])
      ensures old(resumed) <= resumed && old(skipped) <= skipped
      ensures KeptBut(old(View()), View(), Elements(resumed[|old(resumed)|..]))
      ensures OnlyTakenUp(old(View()), client.wired, resumed[|old(resumed)|..]) && FinishedKept(old(View()), View())
      ensures refused == old(refused) ==> ok && (orders - old(orders)) + (unwired - old(unwired)) == |selected|
      ensures refused == old(refused) && unwired == old(unwired) ==> orders == old(orders) + |selected|
      ensures refused == old(refused) ==>
                AllCalled(old(View()), client.wired, resumed[|old(resumed)|..], skipped[|old(skipped)|..])
    {
      hide Sound, KeptBut, OnlyTakenUp, AllCalled, Elements, FinishedKept;
      NothingCalled(View(), client.wired);
      NothingKept(View());
      ok, cutoff, selected, results := RenewExpiring();
      if ok {
        ghost var done, left, st := [], [], View();
        var resumedAll;
        resumedAll, done, left := ResumeInFlightOrders();
        assert resumed[|old(resumed)|..] == done && skipped[|old(skipped)|..] == left;
        CallsFrom(old(View()), st, View(), client.wired, done, left);
      } else {
        assert resumed[|old(resumed)|..] == [];
        KeptNone(old(View()), View());
      }
    }
  }

  /** A certificate not yet renewed is still there. */
  lemma OthersKept(st: Store, st': Store, selected: seq<Cert>, i: nat)
    requires i < |selected| && Only(st, st', 0, selected[i].hostname)
    requires forall j, k :: 0 <= j < k < |selected| ==> selected[j].hostname != selected[k].hostname
    requires forall j :: i <= j < |selected| ==>
               selected[j].hostname in st.certs && st.certs[selected[j].hostname] == selected[j]
    ensures forall j :: i < j < |selected| ==>
              selected[j].hostname in st'.certs && st'.certs[selected[j].hostname] == selected[j]
  {
  }

  lemma RunNothing(c: Config)
    ensures Run(c, []) == c
  {
  }

  lemma NothingDealt(st: Store, s: Status, wired: set<ChallengeType>)
    ensures Dealt(st, s, wired, [], [])
  {
  }

  lemma NoneDealt(rows: seq<OrderRow>, wired: set<ChallengeType>)
    ensures DealtTo(rows, 0, wired, [], [])
  {
  }

  /** Of the rows that were there, only those in flight are resumed, and only if they are
      taken up. */
  predicate OnlyTakenUp(st: Store, wired: set<ChallengeType>, done: seq<nat>) {
    forall id :: id in done && id in st.orders ==>
      AcmeSystem.InFlight(st.orders[id].status) && TakesUp(wired, st.orders[id])
  }

  /** Every row in flight was taken up, or refused at once. */
  predicate AllCalled(st: Store, wired: set<ChallengeType>, done: seq<nat>, left: seq<nat>) {
    forall id :: id in st.orders && AcmeSystem.InFlight(st.orders[id].status) ==>
      if TakesUp(wired, st.orders[id]) then id in done else id in left
  }

  lemma CalledPlainly(st: Store, wired: set<ChallengeType>, done: seq<nat>, left: seq<nat>)
    requires AllCalled(st, wired, done, left)
    ensures forall id :: id in st.orders && st.orders[id].status in {Pending, Ready, Processing} ==>
              id in done || id in left
  {
    hide TakesUp;
  }

  lemma NothingCalled(st: Store, wired: set<ChallengeType>)
    ensures OnlyTakenUp(st, wired, [])
  {
  }

  /** Buckets add up. */
  lemma BucketAdded(st0: Store, st: Store, st': Store, s: Status, wired: set<ChallengeType>, done: seq<nat>,
                    more: seq<nat>, also: seq<nat>)
    requires OnlyTakenUp(st0, wired, done) && KeptBut(st0, st, Elements(done))
    requires KeptBut(st, st', Elements(more)) && Dealt(st, s, wired, more, also) && AcmeSystem.InFlight(s)
    ensures OnlyTakenUp(st0, wired, done + more) && KeptBut(st0, st', Elements(done + more))
    ensures FinishedKept(st0, st')
  {
    hide TakesUp;
  }

  /** A row in flight is in its status's bucket when that comes, or was resumed before. */
  lemma EveryRowCalled(st0: Store, st1: Store, st2: Store, wired: set<ChallengeType>, first: seq<nat>, first': seq<nat>,
                       second: seq<nat>, second': seq<nat>, third: seq<nat>, third': seq<nat>)
    requires KeptBut(st0, st1, Elements(first)) && KeptBut(st0, st2, Elements(first + second))
    requires OnlyTakenUp(st0, wired, first) && OnlyTakenUp(st0, wired, first + second)
    requires AllDealt(st0, Pending, wired, first, first') && AllDealt(st1, Ready, wired, second, second')
    requires AllDealt(st2, Processing, wired, third, third')
    ensures AllCalled(st0, wired, first + second + third, first' + second' + third')
  {
    hide TakesUp;
  }

  /** Rows that were there before the renewals are as they were when the resumption starts. */
  lemma CallsFrom(st0: Store, st: Store, st': Store, wired: set<ChallengeType>, done: seq<nat>, left: seq<nat>)
    requires KeptBut(st0, st, {}) && KeptBut(st, st', Elements(done)) && OnlyTakenUp(st, wired, done)
    ensures KeptBut(st0, st', Elements(done)) && OnlyTakenUp(st0, wired, done)
    ensures FinishedKept(st0, st')
    ensures AllCalled(st, wired, done, left) ==> AllCalled(st0, wired, done, left)
  {
    hide TakesUp;
  }

  lemma KeptNone(st: Store, st': Store)
    requires KeptBut(st, st', {})
    ensures KeptBut(st, st', Elements([])) && FinishedKept(st, st')
  {
  }

  lemma StartsForHost(hostnames: seq<string>, t: ChallengeType, env: Env)
    requires hostnames != [] && t != Unset
    ensures StartOrder(hostnames, t, env).hostnames == hostnames
    ensures exists hs, ct, e ::
              hs != [] && ct != Unset && StartOrder(hostnames, t, env) == StartOrder(hs, ct, e)
  {
  }
}
