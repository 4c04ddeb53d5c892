/** What every run of the order pipeline keeps, whatever the server, the store,
    the plugin and the clock answer (sections 7.1.6 and 7.4 of RFC 8555). */
module AcmeDrive {
  import opened AcmeTypes
  import opened Options
  import opened AcmeMachine
  import opened Base64Url

  /** A call that has not done anything yet: Order, or resumeOrder of a row. */
  predicate Fresh(c: Config) {
    && (c.proc.phase == Starting || c.proc.phase == Refetching)
    && c.proc.subject.None?
    && c.proc.teardowns == []
    && c.proc.authzs == []
  }

  // -- Reading a trace ------------------------------------------------------

  function Last<T>(s: seq<T>): T
    requires s != []
  {
    s[|s| - 1]
  }

  function Init<T>(s: seq<T>): seq<T>
    requires s != []
  {
    s[..|s| - 1]
  }

  predicate IsFinalize(e: Event) {
    (e.PostFailed? || e.OrderReported?) && e.req.Finalize?
  }

  predicate IsPost(e: Event) {
    e.PostFailed? || e.OrderReported? || e.AuthzReported? || e.ChallengeAcked? || e.ChainDownloaded?
  }

  /** The CSRs posted to a finalize URL, in order. */
  function Finalized(t: seq<Event>): seq<string> {
    if t == [] then [] else Finalized(Init(t)) + FinalizedBy(Last(t))
  }

  function FinalizedBy(e: Event): seq<string> {
    if IsFinalize(e) then [e.req.csr] else []
  }

  /** The subject keys generated, in order. */
  function KeysBuilt(t: seq<Event>): seq<SubjectKey> {
    if t == [] then [] else KeysBuilt(Init(t)) + KeysBuiltBy(Last(t))
  }

  function KeysBuiltBy(e: Event): seq<SubjectKey> {
    if e.KeyBuilt? then [SubjectKey(e.key, e.der)] else []
  }

  /** The order statuses the server reported, in order. */
  function Reported(t: seq<Event>): seq<Status> {
    if t == [] then [] else Reported(Init(t)) + ReportedBy(Last(t))
  }

  function ReportedBy(e: Event): seq<Status> {
    if e.OrderReported? then [e.doc.status] else []
  }

  predicate LatestIs(reports: seq<Status>, s: Status) {
    reports != [] && Last(reports) == s
  }

  /** The order as the drive first saw it. */
  function FirstDoc(t: seq<Event>): Option<OrderDoc> {
    if t == [] then None else FirstDocWith(FirstDoc(Init(t)), Last(t))
  }

  function FirstDocWith(doc: Option<OrderDoc>, e: Event): Option<OrderDoc> {
    if doc.None? && e.OrderReported? then Some(e.doc) else doc
  }

  function ValidAuthzs(t: seq<Event>): set<string> {
    if t == [] then {} else ValidAuthzs(Init(t)) + ValidAuthzsBy(Last(t))
  }

  function ValidAuthzsBy(e: Event): set<string> {
    if e.AuthzReported? && e.authz.status.AuthzValid? then {e.url} else {}
  }

  /** The certificate URLs the server announced. */
  function CertURLs(t: seq<Event>): set<string> {
    if t == [] then {} else CertURLs(Init(t)) + CertURLsBy(Last(t))
  }

  function CertURLsBy(e: Event): set<string> {
    if e.OrderReported? && e.doc.certificate != "" then {e.doc.certificate} else {}
  }

  /** Where the order is: the Location that answered newOrder, or what the row began
      with. */
  function OrderUrl(url0: string, t: seq<Event>): string {
    if t == [] then url0 else OrderUrlWith(OrderUrl(url0, Init(t)), Last(t))
  }

  function OrderUrlWith(url: string, e: Event): string {
    if e.OrderReported? && e.req.NewOrder? then e.location else url
  }

  /** Where it is finalized: what newOrder reported, replaced by what an order fetch before
      the key reports, unless that is empty. */
  function FinalizeUrl(url0: string, t: seq<Event>): string {
    if t == [] then url0 else FinalizeUrlWith(FinalizeUrl(url0, Init(t)), KeysBuilt(Init(t)), Last(t))
  }

  function FinalizeUrlWith(url: string, keys: seq<SubjectKey>, e: Event): string {
    if e.OrderReported? && e.req.NewOrder? then e.doc.finalize
    else if e.OrderReported? && e.req.FetchOrder? && keys == [] && e.doc.finalize != "" then e.doc.finalize
    else url
  }

  /** Where its certificate is: the last one that finalize or an order fetch after the key
      reported. */
  function CertUrl(url0: string, t: seq<Event>): string {
    if t == [] then url0 else CertUrlWith(CertUrl(url0, Init(t)), KeysBuilt(Init(t)), Last(t))
  }

  function CertUrlWith(url: string, keys: seq<SubjectKey>, e: Event): string {
    if e.OrderReported? && (e.req.Finalize? || (e.req.FetchOrder? && keys != [])) && e.doc.certificate != ""
    then e.doc.certificate
    else url
  }

  /** The chains downloaded, with their URLs. */
  function Downloads(t: seq<Event>): set<(string, string)> {
    if t == [] then {} else Downloads(Init(t)) + DownloadsBy(Last(t))
  }

  function DownloadsBy(e: Event): set<(string, string)> {
    if e.ChainDownloaded? then {(e.url, e.chain)} else {}
  }

  function PostCount(t: seq<Event>): nat {
    if t == [] then 0 else PostCount(Init(t)) + (if IsPost(Last(t)) then 1 else 0)
  }

  // -- Finalize -------------------------------------------------------------

  /** Phases in the order a call passes through them; it never goes back. */
  function Stage(ph: Phase): nat {
    match ph
    case Starting | Inserting | Ordering | Refetching => 0
    case PersistPlaced | PersistResumed => 1
    case Authorizing(_) | Provisioning(_, _, _) | Acking(_, _) | AuthzWaiting(_, _) | AuthzPolling(_, _) => 2
    case Refreshing => 3
    case PersistRefreshed => 4
    case MakingKey => 5
    case Finalizing(_) => 6
    case PersistFinalized => 7
    case Waiting(_) | Polling(_) | PersistPolled(_) => 8
    case Downloading | Parsing(_) => 9
    case Saving(_) => 10
    case PersistSaved(_) => 11
    case Marking => 12
    case CleaningUp(_, _) => 13
    case Done(_) => 14
  }

  lemma StageGrowsEarly(p: Proc, e: Event)
    requires Answers(p, e)
    requires Stage(p.phase) <= 2
    ensures Stage(p.phase) <= Stage(NextPhase(p, e))
  {
  }

  lemma StageGrowsLate(p: Proc, e: Event)
    requires Answers(p, e)
    requires Stage(p.phase) > 2
    ensures Stage(p.phase) <= Stage(NextPhase(p, e))
  {
  }

  lemma StageGrows(p: Proc, e: Event)
    requires Answers(p, e)
    ensures Stage(p.phase) <= Stage(NextPhase(p, e))
  {
    hide Answers, NextPhase;
    if Stage(p.phase) <= 2 {
      StageGrowsEarly(p, e);
    } else {
      StageGrowsLate(p, e);
    }
  }

  // One key per drive, at most one finalize, and that one carries the key's CSR.

  predicate SubjectInv(keys: seq<SubjectKey>, p: Proc) {
    && keys == (if p.subject.Some? then [p.subject.value] else [])
    && (Stage(p.phase) <= 5 ==> p.subject.None?)
    && (6 <= Stage(p.phase) <= 11 ==> p.subject.Some?)
    && (p.phase.Saving? && p.subject.Some? ==> p.phase.cert.key == p.subject.value.key)
  }

  predicate CsrInv(csrs: seq<string>, p: Proc) {
    && (Stage(p.phase) <= 6 ==> csrs == [])
    && (csrs == [] || (p.subject.Some? && csrs == [Encoded(p.subject.value.der)]))
    && (p.phase.Finalizing? && p.subject.Some? ==> p.phase.csr == Encoded(p.subject.value.der))
  }

  predicate KeyInv(keys: seq<SubjectKey>, csrs: seq<string>, p: Proc) {
    SubjectInv(keys, p) && CsrInv(csrs, p)
  }

  lemma SubjectInvStepFirst(keys: seq<SubjectKey>, p: Proc, e: Event)
    requires SubjectInv(keys, p) && Answers(p, e)
    requires Stage(p.phase) <= 1
    ensures SubjectInv(keys + KeysBuiltBy(e), After(p, e))
  {
    hide Encoded;
    StageGrows(p, e);
  }

  lemma SubjectInvStepEarly(keys: seq<SubjectKey>, p: Proc, e: Event)
    requires SubjectInv(keys, p) && Answers(p, e)
    requires 1 < Stage(p.phase) <= 5
    ensures SubjectInv(keys + KeysBuiltBy(e), After(p, e))
  {
    hide Encoded;
    StageGrows(p, e);
  }

  lemma SubjectInvStepLate(keys: seq<SubjectKey>, p: Proc, e: Event)
    requires SubjectInv(keys, p) && Answers(p, e)
    requires Stage(p.phase) > 5
    ensures SubjectInv(keys + KeysBuiltBy(e), After(p, e))
  {
    hide Encoded;
    StageGrows(p, e);
  }

  lemma SubjectInvStep(keys: seq<SubjectKey>, p: Proc, e: Event)
    requires SubjectInv(keys, p) && Answers(p, e)
    ensures SubjectInv(keys + KeysBuiltBy(e), After(p, e))
  {
    hide Answers, NextPhase, NextRow, NextAuthzs, NextSubject, NextTeardowns, SubjectInv;
    if Stage(p.phase) <= 1 {
      SubjectInvStepFirst(keys, p, e);
    } else if Stage(p.phase) <= 5 {
      SubjectInvStepEarly(keys, p, e);
    } else {
      SubjectInvStepLate(keys, p, e);
    }
  }

  lemma CsrInvStep(keys: seq<SubjectKey>, csrs: seq<string>, p: Proc, e: Event)
    requires SubjectInv(keys, p) && CsrInv(csrs, p) && Answers(p, e)
    ensures CsrInv(csrs + FinalizedBy(e), After(p, e))
  {
    hide Encoded;
    StageGrows(p, e);
  }

  lemma KeyInvStep(keys: seq<SubjectKey>, csrs: seq<string>, p: Proc, e: Event)
    requires KeyInv(keys, csrs, p) && Answers(p, e)
    ensures KeyInv(keys + KeysBuiltBy(e), csrs + FinalizedBy(e), After(p, e))
  {
    hide Answers, After, SubjectInv, CsrInv;
    SubjectInvStep(keys, p, e);
    CsrInvStep(keys, csrs, p, e);
  }

  lemma {:induction false} KeyInvHolds(c: Config, t: seq<Event>)
    requires Fresh(c) && IsRun(c, t)
    ensures KeyInv(KeysBuilt(t), Finalized(t), Run(c, t).proc)
  {
    hide Answers, Enabled, After, Persist, Touch;
    if t != [] {
      KeyInvHolds(c, Init(t));
      KeyInvStep(KeysBuilt(Init(t)), Finalized(Init(t)), Run(c, Init(t)).proc, Last(t));
    }
  }

  // The row always carries what the server said last.

  predicate StatusInv(reports: seq<Status>, p: Proc) {
    && (1 <= Stage(p.phase) <= 11 ==> LatestIs(reports, p.row.status))
    && (p.phase.Finalizing? ==> p.row.status == Ready)
    && (9 <= Stage(p.phase) <= 11 ==> p.row.status == Valid)
  }

  lemma StatusInvStepFirst(reports: seq<Status>, p: Proc, e: Event)
    requires StatusInv(reports, p) && Answers(p, e)
    requires Stage(p.phase) <= 1
    ensures StatusInv(reports + ReportedBy(e), After(p, e))
  {
    StageGrows(p, e);
  }

  lemma StatusInvStepEarly(reports: seq<Status>, p: Proc, e: Event)
    requires StatusInv(reports, p) && Answers(p, e)
    requires 1 < Stage(p.phase) <= 5
    ensures StatusInv(reports + ReportedBy(e), After(p, e))
  {
    StageGrows(p, e);
  }

  lemma StatusInvStepLate(reports: seq<Status>, p: Proc, e: Event)
    requires StatusInv(reports, p) && Answers(p, e)
    requires Stage(p.phase) > 5
    ensures StatusInv(reports + ReportedBy(e), After(p, e))
  {
    StageGrows(p, e);
  }

  lemma StatusInvStep(reports: seq<Status>, p: Proc, e: Event)
    requires StatusInv(reports, p) && Answers(p, e)
    ensures StatusInv(reports + ReportedBy(e), After(p, e))
  {
    hide Answers, NextPhase, NextRow, NextAuthzs, NextSubject, NextTeardowns, StatusInv;
    if Stage(p.phase) <= 1 {
      StatusInvStepFirst(reports, p, e);
    } else if Stage(p.phase) <= 5 {
      StatusInvStepEarly(reports, p, e);
    } else {
      StatusInvStepLate(reports, p, e);
    }
  }

  lemma {:induction false} StatusInvHolds(c: Config, t: seq<Event>)
    requires Fresh(c) && IsRun(c, t)
    ensures StatusInv(Reported(t), Run(c, t).proc)
  {
    hide Answers, Enabled, After, Persist, Touch;
    if t != [] {
      StatusInvHolds(c, Init(t));
      StatusInvStep(Reported(Init(t)), Run(c, Init(t)).proc, Last(t));
    }
  }

  // Authorisations are taken in order, each until it is reported valid.

  /** How many of the listed authorisations the phase has behind it. */
  function AuthzDone(p: Proc): nat {
    match p.phase
    case Authorizing(k) => k
    case Provisioning(k, _, _) => k
    case Acking(k, _) => k
    case AuthzWaiting(k, _) => k
    case AuthzPolling(k, _) => k
    case _ => if 3 <= Stage(p.phase) <= 11 then |p.authzs| else 0
  }

  predicate AuthzInv(doc: Option<OrderDoc>, valid: set<string>, p: Proc) {
    && (doc.None? ==> p.authzs == [] && (Stage(p.phase) == 0 || Stage(p.phase) >= 12))
    && (doc.Some? ==> p.authzs == doc.value.authorizations && Stage(p.phase) > 0)
    && (doc.Some? && Stage(p.phase) == 1 ==> p.row.status == doc.value.status)
    && (doc.Some? && Stage(p.phase) > 1 && doc.value.status == Pending ==>
          forall j :: 0 <= j < AuthzDone(p) && j < |p.authzs| ==> p.authzs[j] in valid)
  }

  lemma AuthzInvStepFirst(doc: Option<OrderDoc>, valid: set<string>, p: Proc, e: Event)
    requires AuthzInv(doc, valid, p) && Answers(p, e)
    requires Stage(p.phase) <= 1
    ensures AuthzInv(FirstDocWith(doc, e), valid + ValidAuthzsBy(e), After(p, e))
  {
    StageGrows(p, e);
  }

  lemma AuthzInvStepEarly(doc: Option<OrderDoc>, valid: set<string>, p: Proc, e: Event)
    requires AuthzInv(doc, valid, p) && Answers(p, e)
    requires 1 < Stage(p.phase) <= 2
    ensures AuthzInv(FirstDocWith(doc, e), valid + ValidAuthzsBy(e), After(p, e))
  {
    StageGrows(p, e);
  }

  lemma AuthzInvStepLate(doc: Option<OrderDoc>, valid: set<string>, p: Proc, e: Event)
    requires AuthzInv(doc, valid, p) && Answers(p, e)
    requires Stage(p.phase) > 2
    ensures AuthzInv(FirstDocWith(doc, e), valid + ValidAuthzsBy(e), After(p, e))
  {
    StageGrows(p, e);
  }

  lemma AuthzInvStep(doc: Option<OrderDoc>, valid: set<string>, p: Proc, e: Event)
    requires AuthzInv(doc, valid, p) && Answers(p, e)
    ensures AuthzInv(FirstDocWith(doc, e), valid + ValidAuthzsBy(e), After(p, e))
  {
    hide Answers, NextPhase, NextRow, NextAuthzs, NextSubject, NextTeardowns, AuthzInv;
    if Stage(p.phase) <= 1 {
      AuthzInvStepFirst(doc, valid, p, e);
    } else if Stage(p.phase) <= 2 {
      AuthzInvStepEarly(doc, valid, p, e);
    } else {
      AuthzInvStepLate(doc, valid, p, e);
    }
  }

  lemma {:induction false} AuthzInvHolds(c: Config, t: seq<Event>)
    requires Fresh(c) && IsRun(c, t)
    ensures AuthzInv(FirstDoc(t), ValidAuthzs(t), Run(c, t).proc)
  {
    hide Answers, Enabled, After, Persist, Touch;
    if t != [] {
      AuthzInvHolds(c, Init(t));
      AuthzInvStep(FirstDoc(Init(t)), ValidAuthzs(Init(t)), Run(c, Init(t)).proc, Last(t));
    }
  }

  /** Whenever a drive posts finalize: it has not done so before; the latest report
      said ready; if it began pending, every authorisation listed then has been
      reported valid; the CSR is that of the one key generated; and it goes to the finalize
      URL reported last before the key. */
  lemma FinalizeDiscipline(c: Config, t: seq<Event>, e: Event)
    requires Fresh(c) && IsRun(c, t + [e]) && IsFinalize(e)
    ensures Finalized(t) == []
    ensures LatestIs(Reported(t), Ready)
    ensures FirstDoc(t).Some?
    ensures FirstDoc(t).value.status == Pending ==>
              forall u :: u in FirstDoc(t).value.authorizations ==> u in ValidAuthzs(t)
    ensures |KeysBuilt(t)| == 1 && e.req.csr == Encoded(KeysBuilt(t)[0].der)
    ensures e.req.url == FinalizeUrl(c.proc.row.finalizeURL, t)
  {
    hide Answers, Enabled, After, Persist, Touch;
    RunOn(c, t, e);
    KeyInvHolds(c, t);
    StatusInvHolds(c, t);
    AuthzInvHolds(c, t);
    UrlInvHolds(c, t);
    AtFinalize(KeysBuilt(t), Finalized(t), Reported(t), FirstDoc(t), ValidAuthzs(t), Run(c, t).proc, e);
  }

  lemma AtFinalize(keys: seq<SubjectKey>, csrs: seq<string>, reports: seq<Status>,
                   doc: Option<OrderDoc>, valid: set<string>, p: Proc, e: Event)
    requires KeyInv(keys, csrs, p) && StatusInv(reports, p) && AuthzInv(doc, valid, p)
    requires Answers(p, e) && IsFinalize(e)
    ensures csrs == [] && LatestIs(reports, Ready) && doc.Some?
    ensures doc.value.status == Pending ==> forall u :: u in doc.value.authorizations ==> u in valid
    ensures |keys| == 1 && e.req.csr == Encoded(keys[0].der) && e.req.url == p.row.finalizeURL
  {
    assert p.phase.Finalizing?;
  }

  lemma FinalizeAtMostOnce(c: Config, t: seq<Event>)
    requires Fresh(c) && IsRun(c, t)
    ensures |Finalized(t)| <= 1
  {
    hide Answers, Enabled, After, Persist, Touch;
    KeyInvHolds(c, t);
  }

  // -- Where requests go ----------------------------------------------------

  predicate UrlInv(order: string, finalize: string, cert: string, p: Proc) {
    p.row.orderURL == order && p.row.finalizeURL == finalize && p.row.certificateURL == cert
  }

  lemma UrlInvStep(keys: seq<SubjectKey>, order: string, finalize: string, cert: string, p: Proc, e: Event)
    requires SubjectInv(keys, p) && UrlInv(order, finalize, cert, p) && Answers(p, e)
    ensures UrlInv(OrderUrlWith(order, e), FinalizeUrlWith(finalize, keys, e), CertUrlWith(cert, keys, e), After(p, e))
  {
    hide NextPhase;
  }

  lemma {:induction false} UrlInvHolds(c: Config, t: seq<Event>)
    requires Fresh(c) && IsRun(c, t)
    ensures var row := c.proc.row;
            UrlInv(OrderUrl(row.orderURL, t), FinalizeUrl(row.finalizeURL, t), CertUrl(row.certificateURL, t),
                   Run(c, t).proc)
  {
    hide Answers, Enabled, After, Persist, Touch;
    if t != [] {
      var row := c.proc.row;
      UrlInvHolds(c, Init(t));
      KeyInvHolds(c, Init(t));
      UrlInvStep(KeysBuilt(Init(t)), OrderUrl(row.orderURL, Init(t)), FinalizeUrl(row.finalizeURL, Init(t)),
                 CertUrl(row.certificateURL, Init(t)), Run(c, Init(t)).proc, Last(t));
    }
  }

  /** An order is fetched, whether resumed, confirmed or polled, from the Location that
      answered newOrder, or from the URL the row began with. */
  lemma OrderFetchedFrom(c: Config, t: seq<Event>, e: Event)
    requires Fresh(c) && IsRun(c, t + [e]) && (e.PostFailed? || e.OrderReported?) && e.req.FetchOrder?
    ensures e.req.url == OrderUrl(c.proc.row.orderURL, t)
  {
    hide Answers, Enabled, After, Persist, Touch;
    RunOn(c, t, e);
    UrlInvHolds(c, t);
    AtFetch(Run(c, t).proc, e);
  }

  lemma AtFetch(p: Proc, e: Event)
    requires Answers(p, e) && (e.PostFailed? || e.OrderReported?) && e.req.FetchOrder?
    ensures e.req.url == p.row.orderURL
  {
  }

  // -- Saving the certificate -----------------------------------------------

  predicate ChainInv(hosts: seq<string>, url0: string, urls: set<string>, chains: set<(string, string)>, p: Proc) {
    && p.hostnames == hosts
    && (p.row.certificateURL in {"", url0} || p.row.certificateURL in urls)
    && (9 <= Stage(p.phase) <= 10 ==> p.row.certificateURL != "")
    && (p.phase.Parsing? ==> (p.row.certificateURL, p.phase.chain) in chains)
    && (p.phase.Saving? ==> (p.row.certificateURL, p.phase.cert.chain) in chains)
    && (p.phase.Saving? ==> hosts != [] && p.phase.cert.hostname == Lower(hosts[0]))
    && (p.phase.Saving? ==> p.phase.cert.orderID == p.row.id)
  }

  lemma ChainInvStepFirst(hosts: seq<string>, url0: string, urls: set<string>, chains: set<(string, string)>,
                     p: Proc, e: Event)
    requires ChainInv(hosts, url0, urls, chains, p) && Answers(p, e)
    requires Stage(p.phase) <= 1
    ensures ChainInv(hosts, url0, urls + CertURLsBy(e), chains + DownloadsBy(e), After(p, e))
  {
    StageGrows(p, e);
  }

  lemma ChainInvStepEarly(hosts: seq<string>, url0: string, urls: set<string>, chains: set<(string, string)>,
                     p: Proc, e: Event)
    requires ChainInv(hosts, url0, urls, chains, p) && Answers(p, e)
    requires 1 < Stage(p.phase) <= 7
    ensures ChainInv(hosts, url0, urls + CertURLsBy(e), chains + DownloadsBy(e), After(p, e))
  {
    StageGrows(p, e);
  }

  lemma ChainInvStepLate(hosts: seq<string>, url0: string, urls: set<string>, chains: set<(string, string)>,
                     p: Proc, e: Event)
    requires ChainInv(hosts, url0, urls, chains, p) && Answers(p, e)
    requires Stage(p.phase) > 7
    ensures ChainInv(hosts, url0, urls + CertURLsBy(e), chains + DownloadsBy(e), After(p, e))
  {
    StageGrows(p, e);
  }

  lemma ChainInvStep(hosts: seq<string>, url0: string, urls: set<string>, chains: set<(string, string)>,
                     p: Proc, e: Event)
    requires ChainInv(hosts, url0, urls, chains, p) && Answers(p, e)
    ensures ChainInv(hosts, url0, urls + CertURLsBy(e), chains + DownloadsBy(e), After(p, e))
  {
    hide Answers, NextPhase, NextRow, NextAuthzs, NextSubject, NextTeardowns, ChainInv;
    if Stage(p.phase) <= 1 {
      ChainInvStepFirst(hosts, url0, urls, chains, p, e);
    } else if Stage(p.phase) <= 7 {
      ChainInvStepEarly(hosts, url0, urls, chains, p, e);
    } else {
      ChainInvStepLate(hosts, url0, urls, chains, p, e);
    }
  }

  lemma {:induction false} ChainInvHolds(c: Config, t: seq<Event>)
    requires Fresh(c) && IsRun(c, t)
    ensures ChainInv(c.proc.hostnames, c.proc.row.certificateURL, CertURLs(t), Downloads(t), Run(c, t).proc)
  {
    hide Answers, Enabled, After, Persist, Touch;
    if t != [] {
      ChainInvHolds(c, Init(t));
      ChainInvStep(c.proc.hostnames, c.proc.row.certificateURL, CertURLs(Init(t)), Downloads(Init(t)),
                   Run(c, Init(t)).proc, Last(t));
    }
  }

  /** A certificate is saved only when the server's latest report said valid; its
      chain was downloaded from a certificate URL the server announced (or the row
      already carried); its key is the drive's only key; and if the drive posted
      finalize, then with exactly that key's CSR. */
  lemma SavedCertificate(c: Config, t: seq<Event>, e: Event) returns (url: string)
    requires Fresh(c) && IsRun(c, t + [e]) && e.CertWritten?
    ensures LatestIs(Reported(t), Valid)
    ensures url != "" && (url, e.cert.chain) in Downloads(t) && url == CertUrl(c.proc.row.certificateURL, t)
    ensures url == c.proc.row.certificateURL || url in CertURLs(t)
    ensures c.proc.hostnames != [] && e.cert.hostname == Lower(c.proc.hostnames[0])
    ensures |KeysBuilt(t)| == 1 && e.cert.key == KeysBuilt(t)[0].key
    ensures Finalized(t) == [] || Finalized(t) == [Encoded(KeysBuilt(t)[0].der)]
  {
    hide Answers, Enabled, After, Persist, Touch;
    RunOn(c, t, e);
    KeyInvHolds(c, t);
    StatusInvHolds(c, t);
    ChainInvHolds(c, t);
    UrlInvHolds(c, t);
    url := Run(c, t).proc.row.certificateURL;
    AtSave(KeysBuilt(t), Finalized(t), Reported(t), c.proc.hostnames, c.proc.row.certificateURL,
           CertURLs(t), Downloads(t), Run(c, t).proc, e);
  }

  lemma AtSave(keys: seq<SubjectKey>, csrs: seq<string>, reports: seq<Status>,
               hosts: seq<string>, url0: string, urls: set<string>, chains: set<(string, string)>, p: Proc, e: Event)
    requires KeyInv(keys, csrs, p) && StatusInv(reports, p) && ChainInv(hosts, url0, urls, chains, p)
    requires Answers(p, e) && e.CertWritten?
    ensures LatestIs(reports, Valid)
    ensures var url := p.row.certificateURL;
            url != "" && (url, e.cert.chain) in chains && (url == url0 || url in urls)
    ensures hosts != [] && e.cert.hostname == Lower(hosts[0])
    ensures |keys| == 1 && e.cert.key == keys[0].key
    ensures csrs == [] || csrs == [Encoded(keys[0].der)]
  {
    AtSaving(p, e);
  }

  lemma AtSaving(p: Proc, e: Event)
    requires Answers(p, e) && e.CertWritten?
    ensures p.phase == Saving(e.cert)
  {
  }

  // -- When the saved key was sent ------------------------------------------

  /** The status reported last when the subject key was generated. */
  function StatusAtKey(t: seq<Event>): Option<Status> {
    if t == [] then None else StatusAtKeyWith(StatusAtKey(Init(t)), Reported(Init(t)), Last(t))
  }

  function StatusAtKeyWith(at: Option<Status>, reports: seq<Status>, e: Event): Option<Status> {
    if e.KeyBuilt? && reports != [] then Some(Last(reports)) else at
  }

  predicate SentInv(at: Option<Status>, csrs: seq<string>, p: Proc) {
    && (6 <= Stage(p.phase) <= 11 ==> at.Some?)
    && (p.phase.Finalizing? ==> at == Some(Ready))
    && (7 <= Stage(p.phase) <= 11 ==> (csrs != [] <==> at == Some(Ready)))
  }

  lemma SentInvStep(at: Option<Status>, reports: seq<Status>, csrs: seq<string>, p: Proc, e: Event)
    requires SentInv(at, csrs, p) && StatusInv(reports, p) && Answers(p, e)
    requires Stage(p.phase) <= 6 ==> csrs == []
    ensures SentInv(StatusAtKeyWith(at, reports, e), csrs + FinalizedBy(e), After(p, e))
  {
    hide Answers, NextPhase, NextRow, NextAuthzs, NextSubject, NextTeardowns;
    StageGrows(p, e);
    ToSentPhases(p, e);
  }

  /** How the phases after the key is made are entered. */
  lemma ToSentPhases(p: Proc, e: Event)
    requires Answers(p, e)
    ensures Stage(NextPhase(p, e)) == 6 ==> e.KeyBuilt? && p.row.status == Ready && Stage(p.phase) == 5
    ensures 7 <= Stage(NextPhase(p, e)) <= 11 && Stage(p.phase) <= 6 ==>
              (e.KeyBuilt? && p.row.status != Ready && Stage(p.phase) == 5) || (IsFinalize(e) && Stage(p.phase) == 6)
    ensures IsFinalize(e) ==> Stage(p.phase) == 6
    ensures e.KeyBuilt? ==> Stage(p.phase) == 5
  {
  }

  lemma {:induction false} SentInvHolds(c: Config, t: seq<Event>)
    requires Fresh(c) && IsRun(c, t)
    ensures SentInv(StatusAtKey(t), Finalized(t), Run(c, t).proc)
  {
    hide Answers, Enabled, After, Persist, Touch;
    if t != [] {
      SentInvHolds(c, Init(t));
      StatusInvHolds(c, Init(t));
      KeyInvHolds(c, Init(t));
      SentInvStep(StatusAtKey(Init(t)), Reported(Init(t)), Finalized(Init(t)), Run(c, Init(t)).proc, Last(t));
    }
  }

  /** The saved key's CSR reached the CA exactly when the order was ready at the
      moment the key was generated. A drive that finds the order already processing
      or valid saves a key the CA has never seen. */
  lemma SavedKeyWasSentIffReady(c: Config, t: seq<Event>, e: Event)
    requires Fresh(c) && IsRun(c, t + [e]) && e.CertWritten?
    ensures |KeysBuilt(t)| == 1 && KeysBuilt(t)[0].key == e.cert.key
    ensures Encoded(KeysBuilt(t)[0].der) in Finalized(t) <==> StatusAtKey(t) == Some(Ready)
  {
    hide Answers, Enabled, After, Persist, Touch, Encoded, SentInv, KeyInv;
    RunOn(c, t, e);
    KeyInvHolds(c, t);
    SentInvHolds(c, t);
    AtSent(KeysBuilt(t), Finalized(t), StatusAtKey(t), Run(c, t).proc, e);
  }

  lemma AtSent(keys: seq<SubjectKey>, csrs: seq<string>, at: Option<Status>, p: Proc, e: Event)
    requires KeyInv(keys, csrs, p) && SentInv(at, csrs, p) && Answers(p, e) && e.CertWritten?
    ensures |keys| == 1 && keys[0].key == e.cert.key
    ensures Encoded(keys[0].der) in csrs <==> at == Some(Ready)
  {
    hide Encoded;
    AtSaving(p, e);
  }
}
