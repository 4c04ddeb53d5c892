/** The order pipeline (Order, resumeOrder, driveOrder, processAuthorization and
    the deferred challenge cleanup of internal/acme/order.go) as a machine: what
    a running call does next (Due), and where each answer of the server, the
    store, the plugin or the clock takes it (Step). The answers are arbitrary. */
module AcmeMachine {
  import opened AcmeTypes
  import opened Options
  import opened Base64Url

  datatype Request =
    | NewOrder(hosts: seq<string>)
    | FetchOrder(url: string)
    | FetchAuthz(url: string)
    | AckChallenge(url: string)
    | Finalize(url: string, csr: string)
    | Download(url: string)

  /** What one cleanup closure captured. */
  datatype Teardown = Teardown(challenge: ChallengeType, token: string, host: string)

  /** How a challenger's Provision ended. Abandoned is dns-01 only: the record
      exists, and the call was cancelled during the propagation delay. */
  datatype Provision = Presented(id: string) | Abandoned(id: string) | Refused

  datatype Event =
    | DirectoryFetched(ok: bool)
    | RowInserted(row: OrderRow)
    | InsertFailed(row: OrderRow, applied: bool)
    | PostFailed(req: Request)
    | OrderReported(req: Request, doc: OrderDoc, location: string)
    | AuthzReported(url: string, authz: AuthzDoc)
    | ChallengeAcked(url: string)
    | ChainDownloaded(url: string, chain: string)
    | RowWritten(row: OrderRow, applied: bool, ok: bool)
    | CertWritten(cert: Cert, applied: bool, ok: bool)
    | Provisioned(teardown: Teardown, keyAuth: string, outcome: Provision)
    | TornDown(teardown: Teardown)
    | Waited(cancelled: bool)
    | KeyBuilt(key: Key, der: seq<byte>)
    | KeyFailed
    | LeafParsed(notAfter: int)
    | LeafRejected
    | KeyRejected

  datatype Outcome = Issued(cert: Cert) | Failed

  datatype Phase =
    | Starting | Inserting | Ordering | PersistPlaced       // Order
    | Refetching | PersistResumed                           // resumeOrder
    | Authorizing(k: nat)                                   // driveOrder, step 3
    | Provisioning(k: nat, ch: Challenge, host: string)
    | Acking(k: nat, url: string)
    | AuthzWaiting(k: nat, i: nat)
    | AuthzPolling(k: nat, i: nat)
    | Refreshing | PersistRefreshed
    | MakingKey | Finalizing(csr: string) | PersistFinalized // step 4
    | Waiting(i: nat) | Polling(i: nat) | PersistPolled(i: nat)  // step 5
    | Downloading | Parsing(chain: string)                  // step 6
    | Saving(cert: Cert) | PersistSaved(cert: Cert)         // step 7
    | Marking                                               // markOrderInvalid
    | CleaningUp(j: nat, outcome: Outcome)                  // deferred cleanup
    | Done(outcome: Outcome)

  /** What does not change during a call. */
  datatype Env = Env(maxPolls: nat, plugin: string, thumb: string)

  datatype SubjectKey = SubjectKey(key: Key, der: seq<byte>)

  datatype Proc = Proc(
    phase: Phase,
    row: OrderRow,
    hostnames: seq<string>,
    authzs: seq<string>,
    subject: Option<SubjectKey>,
    teardowns: seq<Teardown>,
    env: Env)

  function StartOrder(hostnames: seq<string>, t: ChallengeType, env: Env): Proc {
    Proc(Starting, OrderRow(0, LowerAll(hostnames), Pending, "", "", "", t, ""), hostnames, [], None, [], env)
  }

  /** A row without an order URL is refused before anything is done. */
  function StartResume(row: OrderRow, env: Env): Proc {
    Proc(if row.orderURL == "" then Done(Failed) else Refetching, row, row.hostnames, [], None, [], env)
  }

  // -- Where control goes ---------------------------------------------------

  function CleanUp(p: Proc, o: Outcome): Phase {
    if p.teardowns == [] then Done(o) else CleaningUp(0, o)
  }

  function DriveStart(p: Proc): Phase {
    if p.row.status == Pending then NextAuthz(p, 0) else MakingKey
  }

  function NextAuthz(p: Proc, k: nat): Phase {
    if k < |p.authzs| then Authorizing(k) else Refreshing
  }

  function NextAuthzPoll(p: Proc, k: nat, i: nat): Phase {
    if i >= p.env.maxPolls then Marking else AuthzWaiting(k, i)
  }

  function NextPoll(p: Proc, i: nat): Phase {
    if p.row.status == Valid then StartDownload(p)
    else if i >= p.env.maxPolls then Marking
    else Waiting(i)
  }

  function StartDownload(p: Proc): Phase {
    if p.row.certificateURL == "" then Marking else Downloading
  }

  // -- What is due ----------------------------------------------------------

  datatype Action =
    | AskDirectory
    | Insert(row: OrderRow)
    | Post(req: Request)
    | Write(row: OrderRow)
    | MarkInvalid
    | Present(teardown: Teardown, keyAuth: string)
    | Remove(teardown: Teardown)
    | Wait
    | MakeKey
    | ParseLeaf
    | Save(cert: Cert)
    | Nothing

  function Due(p: Proc): Action {
    match p.phase
    case Starting => AskDirectory
    case Inserting => Insert(p.row)
    case Ordering => Post(NewOrder(p.hostnames))
    case Refetching | Refreshing => Post(FetchOrder(p.row.orderURL))
    case PersistPlaced | PersistResumed | PersistRefreshed | PersistFinalized => Write(p.row)
    case Authorizing(k) => if k < |p.authzs| then Post(FetchAuthz(p.authzs[k])) else Nothing
    case Provisioning(k, ch, host) =>
      Present(Teardown(p.row.challenge, ch.token, host), ch.token + "." + p.env.thumb)
    case Acking(k, url) => Post(AckChallenge(url))
    case AuthzWaiting(k, i) => Wait
    case AuthzPolling(k, i) => if k < |p.authzs| then Post(FetchAuthz(p.authzs[k])) else Nothing
    case MakingKey => MakeKey
    case Finalizing(csr) => Post(Finalize(p.row.finalizeURL, csr))
    case Waiting(i) => Wait
    case Polling(i) => Post(FetchOrder(p.row.orderURL))
    case PersistPolled(i) => Write(p.row)
    case Downloading => Post(Download(p.row.certificateURL))
    case Parsing(chain) => ParseLeaf
    case Saving(cert) => Save(cert)
    case PersistSaved(cert) => Write(p.row.(status := Valid))
    case Marking => MarkInvalid
    case CleaningUp(j, o) => if j < |p.teardowns| then Remove(p.teardowns[j]) else Nothing
    case Done(o) => Nothing
  }

  /** What the challengers can answer: http-01 cannot fail, an empty host or an
      empty dns plugin name is refused, and a dns-01 record has an id. */
  predicate CanEnd(t: Teardown, plugin: string, o: Provision) {
    match t.challenge
    case Http01 => o == Presented("")
    case TlsAlpn01 => o == Refused || (o == Presented("") && t.host != "")
    case Dns01 => o == Refused || (!o.Refused? && o.id != "" && t.host != "" && plugin != "")
    case Unset => o == Refused
  }

  /** The answers to what is due. */
  predicate Answers(p: Proc, e: Event) {
    match e
    case DirectoryFetched(ok) => Due(p) == AskDirectory
    case RowInserted(row) => Due(p).Insert? && row == p.row.(id := row.id) && row.id > 0
    case InsertFailed(row, applied) => Due(p).Insert? && row == p.row.(id := row.id) && row.id > 0
    case PostFailed(req) => Due(p) == Post(req)
    case OrderReported(req, doc, location) => Due(p) == Post(req) && AsksOrder(p.phase)
    case AuthzReported(url, authz) => Due(p) == Post(FetchAuthz(url))
    case ChallengeAcked(url) => Due(p) == Post(AckChallenge(url))
    case ChainDownloaded(url, chain) => Due(p) == Post(Download(url))
    case RowWritten(row, applied, ok) =>
      (ok ==> applied)
      && (Due(p) == Write(row) || (Due(p) == MarkInvalid && row == p.row.(status := Invalid, error := row.error)))
    case CertWritten(cert, applied, ok) => Due(p) == Save(cert) && (ok ==> applied)
    case Provisioned(t, keyAuth, o) => Due(p) == Present(t, keyAuth) && CanEnd(t, p.env.plugin, o)
    case TornDown(t) => Due(p) == Remove(t)
    case Waited(cancelled) => Due(p) == Wait
    case KeyBuilt(key, der) => Due(p) == MakeKey
    case KeyFailed => Due(p) == MakeKey
    case LeafParsed(notAfter) => Due(p) == ParseLeaf && p.subject.Some? && p.hostnames != []
    case LeafRejected => Due(p) == ParseLeaf
    case KeyRejected => Due(p).Save?
  }

  predicate AsksOrder(ph: Phase) {
    ph.Ordering? || ph.Refetching? || ph.Refreshing? || ph.Finalizing? || ph.Polling?
  }

  // -- What each answer does ------------------------------------------------

  /** The row after an order report: always the status; the order URL from
      newOrder alone; the finalize URL from newOrder, or when a fetch names one;
      the certificate URL when finalize or a poll names one. */
  function NextRow(p: Proc, e: Event): OrderRow {
    match e
    case RowInserted(row) => row
    case OrderReported(req, doc, location) =>
      var row := p.row.(status := doc.status);
      (match p.phase
       case Ordering => row.(orderURL := location, finalizeURL := doc.finalize)
       case Refetching | Refreshing => if doc.finalize != "" then row.(finalizeURL := doc.finalize) else row
       case _ => if doc.certificate != "" then row.(certificateURL := doc.certificate) else row)
    case _ => p.row
  }

  function NextAuthzs(p: Proc, e: Event): seq<string> {
    if e.OrderReported? && (p.phase.Ordering? || p.phase.Refetching?) then e.doc.authorizations else p.authzs
  }

  function NextSubject(p: Proc, e: Event): Option<SubjectKey> {
    if e.KeyBuilt? then Some(SubjectKey(e.key, e.der)) else p.subject
  }

  function NextTeardowns(p: Proc, e: Event): seq<Teardown> {
    if e.Provisioned? && e.outcome.Presented? then p.teardowns + [e.teardown] else p.teardowns
  }

  function OnOrder(p: Proc): Phase {
    match p.phase
    case Ordering => PersistPlaced
    case Refetching => PersistResumed
    case Refreshing => PersistRefreshed
    case Finalizing(csr) => PersistFinalized
    case Polling(i) => PersistPolled(i)
    case ph => ph
  }

  function OnAuthz(p: Proc, authz: AuthzDoc): Phase {
    match p.phase
    case Authorizing(k) =>
      if authz.status.AuthzValid? then NextAuthz(p, k + 1)
      else
        var ch := FindChallenge(authz.challenges, WireChallenge(p.row.challenge));
        if ch.None? then Marking else Provisioning(k, ch.value, authz.host)
    case AuthzPolling(k, i) =>
      if authz.status.AuthzValid? then NextAuthz(p, k + 1)
      else if authz.status.AuthzInvalid? then Marking
      else NextAuthzPoll(p, k, i + 1)
    case ph => ph
  }

  function OnWritten(p: Proc, ok: bool): Phase {
    match p.phase
    case PersistPlaced | PersistResumed => if ok then DriveStart(p) else CleanUp(p, Failed)
    case PersistRefreshed => MakingKey
    case PersistFinalized => NextPoll(p, 0)
    case PersistPolled(i) =>
      if p.row.status == Invalid then Marking
      else if p.row.status == Valid then StartDownload(p)
      else NextPoll(p, i + 1)
    case PersistSaved(cert) => CleanUp(p, Issued(cert))
    case _ => CleanUp(p, Failed)
  }

  function OnWaited(p: Proc, cancelled: bool): Phase {
    match p.phase
    case AuthzWaiting(k, i) => if cancelled then Marking else AuthzPolling(k, i)
    case Waiting(i) => if cancelled then CleanUp(p, Failed) else Polling(i)
    case ph => ph
  }

  function OnProvisioned(p: Proc, o: Provision): Phase {
    match p.phase
    case Provisioning(k, ch, host) => if o.Presented? then Acking(k, ch.url) else Marking
    case ph => ph
  }

  function OnTornDown(p: Proc): Phase {
    match p.phase
    case CleaningUp(j, o) => if j + 1 < |p.teardowns| then CleaningUp(j + 1, o) else Done(o)
    case ph => ph
  }

  /** The certificate that a parsed leaf makes ready to save. */
  function OnLeaf(p: Proc, notAfter: int): Phase {
    if p.phase.Parsing? && p.subject.Some? && p.hostnames != []
    then Saving(Cert(Lower(p.hostnames[0]), p.phase.chain, p.subject.value.key, notAfter, p.row.id))
    else p.phase
  }

  function NextPhase(p: Proc, e: Event): Phase {
    match e
    case DirectoryFetched(ok) => if ok then Inserting else CleanUp(p, Failed)
    case RowInserted(row) => Ordering
    case InsertFailed(row, applied) => CleanUp(p, Failed)
    // Only a failed re-fetch of a resumed order leaves the row as it is.
    case PostFailed(req) => if p.phase.Refetching? then CleanUp(p, Failed) else Marking
    case OrderReported(req, doc, location) => OnOrder(p)
    case AuthzReported(url, authz) => OnAuthz(p, authz)
    case ChallengeAcked(url) => if p.phase.Acking? then NextAuthzPoll(p, p.phase.k, 0) else p.phase
    case ChainDownloaded(url, chain) => Parsing(chain)
    case RowWritten(row, applied, ok) => OnWritten(p, ok)
    case CertWritten(cert, applied, ok) => if ok then PersistSaved(cert) else CleanUp(p, Failed)
    case Provisioned(t, keyAuth, o) => OnProvisioned(p, o)
    case TornDown(t) => OnTornDown(p)
    case Waited(cancelled) => OnWaited(p, cancelled)
    case KeyBuilt(key, der) => if p.row.status == Ready then Finalizing(Encoded(der)) else NextPoll(p, 0)
    case KeyFailed => Marking
    case LeafParsed(notAfter) => OnLeaf(p, notAfter)
    case LeafRejected => Marking
    case KeyRejected => CleanUp(p, Failed)
  }

  function After(p: Proc, e: Event): Proc {
    Proc(NextPhase(p, e), NextRow(p, e), p.hostnames, NextAuthzs(p, e), NextSubject(p, e), NextTeardowns(p, e), p.env)
  }

  // -- The store and the challengers ----------------------------------------

  datatype Store = Store(orders: map<nat, OrderRow>, certs: map<string, Cert>, nextId: nat)

  /** The three challengers' maps, and the ids passed to dns.cleanup. */
  datatype Challengers = Challengers(
    tokens: map<string, string>,
    alpn: map<string, string>,
    records: map<string, string>,
    cleaned: seq<string>)

  predicate Enabled(st: Store, e: Event) {
    match e
    case RowInserted(row) => row.id >= st.nextId
    case InsertFailed(row, applied) => applied ==> row.id >= st.nextId
    case RowWritten(row, applied, ok) => applied ==> row.id in st.orders
    case _ => true
  }

  function Persist(st: Store, e: Event): Store {
    match e
    case RowInserted(row) => st.(orders := st.orders[row.id := row], nextId := row.id + 1)
    case InsertFailed(row, applied) =>
      if applied then st.(orders := st.orders[row.id := row], nextId := row.id + 1) else st
    case RowWritten(row, applied, ok) => if applied then st.(orders := st.orders[row.id := row]) else st
    case CertWritten(cert, applied, ok) => if applied then st.(certs := st.certs[cert.hostname := cert]) else st
    case _ => st
  }

  function Raise(w: Challengers, t: Teardown, keyAuth: string, o: Provision): Challengers {
    if o.Refused? then w
    else match t.challenge
      case Http01 => if t.token == "" then w else w.(tokens := w.tokens[t.token := keyAuth])
      case TlsAlpn01 => w.(alpn := w.alpn[Lower(t.host) := keyAuth])
      case Dns01 => w.(records := w.records[Lower(t.host) := o.id])
      case Unset => w
  }

  function Raze(w: Challengers, t: Teardown, plugin: string): Challengers {
    match t.challenge
    case Http01 => w.(tokens := w.tokens - {t.token})
    case TlsAlpn01 => w.(alpn := w.alpn - {Lower(t.host)})
    case Dns01 =>
      if plugin == "" || Lower(t.host) !in w.records then w
      else w.(records := w.records - {Lower(t.host)}, cleaned := w.cleaned + [w.records[Lower(t.host)]])
    case Unset => w
  }

  function Touch(w: Challengers, e: Event, plugin: string): Challengers {
    match e
    case Provisioned(t, keyAuth, o) => Raise(w, t, keyAuth, o)
    case TornDown(t) => Raze(w, t, plugin)
    case _ => w
  }

  // -- Runs of one call -----------------------------------------------------

  datatype Config = Config(proc: Proc, store: Store, world: Challengers)

  predicate Possible(c: Config, e: Event) {
    Answers(c.proc, e) && Enabled(c.store, e)
  }

  function Exec(c: Config, e: Event): Config {
    Config(After(c.proc, e), Persist(c.store, e), Touch(c.world, e, c.proc.env.plugin))
  }

  /** The configuration after a whole trace. */
  function Run(c: Config, trace: seq<Event>): Config {
    if trace == [] then c else Exec(Run(c, trace[..|trace| - 1]), trace[|trace| - 1])
  }

  /** Every event of the trace answers what was due when it came. */
  predicate IsRun(c: Config, trace: seq<Event>) {
    trace == [] ||
    (IsRun(c, trace[..|trace| - 1]) && Possible(Run(c, trace[..|trace| - 1]), trace[|trace| - 1]))
  }

  lemma RunOn(c: Config, trace: seq<Event>, e: Event)
    ensures Run(c, trace + [e]) == Exec(Run(c, trace), e)
    ensures IsRun(c, trace + [e]) <==> IsRun(c, trace) && Possible(Run(c, trace), e)
  {
    assert (trace + [e])[..|trace|] == trace;
  }
}
