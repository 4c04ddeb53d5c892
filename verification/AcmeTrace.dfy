/** What an order call does next, read off what it has been told so far: a reference for
    the machine of AcmeMachine that knows no phases (sections 7.1.6 and 7.4 of RFC 8555). */
module AcmeTrace {
  import opened AcmeTypes
  import opened Options
  import opened Base64Url
  import opened AcmeMachine
  import opened AcmeDrive

  /** What a trace comes to: its last two events; how many order reports it has, and the
      row as they make it; the authorisations of the first report, how many were found
      valid, and the one looked at last; the subject key; how often the authorisation was
      looked at since the acknowledgement, and the order since the key; the challenges
      presented, and how many were removed; and the certificate saved. */
  datatype Story = Story(
    last: Option<Event>,
    before: Option<Event>,
    reports: nat,
    row: OrderRow,
    listed: seq<string>,
    validated: nat,
    authz: AuthzDoc,
    key: Option<SubjectKey>,
    looks: nat,
    polls: nat,
    presented: seq<Teardown>,
    removed: nat,
    saved: Option<Cert>)

  function Untold(row: OrderRow): Story {
    Story(None, None, 0, row, [], 0, AuthzDoc(AuthzOther, "", []), None, 0, 0, [], 0, None)
  }

  /** The row: its id when inserted; the status of every report; the order URL from
      newOrder; the finalize URL from newOrder, or from a fetch before the key that names
      one; the certificate URL from finalize, or a fetch after the key, that names one. */
  function RowTold(s: Story, e: Event): OrderRow {
    match e
    case RowInserted(row) => s.row.(id := row.id)
    case OrderReported(NewOrder(_), doc, location) =>
      s.row.(status := doc.status, orderURL := location, finalizeURL := doc.finalize)
    case OrderReported(FetchOrder(_), doc, _) =>
      if s.key.None? then
        s.row.(status := doc.status, finalizeURL := if doc.finalize != "" then doc.finalize else s.row.finalizeURL)
      else
        s.row.(status := doc.status,
               certificateURL := if doc.certificate != "" then doc.certificate else s.row.certificateURL)
    case OrderReported(_, doc, _) =>
      s.row.(status := doc.status,
             certificateURL := if doc.certificate != "" then doc.certificate else s.row.certificateURL)
    case _ => s.row
  }

  function Told(s: Story, e: Event): Story {
    Story(
      Some(e),
      s.last,
      s.reports + (if e.OrderReported? then 1 else 0),
      RowTold(s, e),
      if e.OrderReported? && s.reports == 0 then e.doc.authorizations else s.listed,
      s.validated + (if e.AuthzReported? && e.authz.status.AuthzValid? then 1 else 0),
      if e.AuthzReported? then e.authz else s.authz,
      if e.KeyBuilt? then Some(SubjectKey(e.key, e.der)) else s.key,
      if e.ChallengeAcked? then 0 else s.looks + (if e.AuthzReported? then 1 else 0),
      if e.KeyBuilt? then 0 else s.polls + (if e.OrderReported? && e.req.FetchOrder? then 1 else 0),
      if e.Provisioned? && e.outcome.Presented? then s.presented + [e.teardown] else s.presented,
      s.removed + (if e.TornDown? then 1 else 0),
      if e.CertWritten? && e.ok then Some(e.cert) else s.saved)
  }

  function Heard(row: OrderRow, t: seq<Event>): Story {
    if t == [] then Untold(row) else Told(Heard(row, Init(t)), Last(t))
  }

  // -- What to do -----------------------------------------------------------

  /** At the end the challenges presented are removed, in order. */
  function Ending(s: Story): Action {
    if s.removed < |s.presented| then Remove(s.presented[s.removed]) else Nothing
  }

  /** The next authorisation that is not known to be valid; then the order again. */
  function NextLook(s: Story): Action {
    if s.validated < |s.listed| then Post(FetchAuthz(s.listed[s.validated])) else Post(FetchOrder(s.row.orderURL))
  }

  /** With the key made, and finalize posted if it had to be: download once the order is
      valid, or wait, or give up. */
  function Settle(p0: Proc, s: Story): Action {
    if s.row.status == Valid then
      if s.row.certificateURL == "" then MarkInvalid else Post(Download(s.row.certificateURL))
    else if s.polls >= p0.env.maxPolls then MarkInvalid
    else Wait
  }

  /** An authorisation that is not valid. After a wait it is one that was acknowledged; else
      its challenge of the call's type is presented. */
  function OnLook(p0: Proc, s: Story, authz: AuthzDoc): Action {
    if s.before.Some? && s.before.value.Waited? then
      if authz.status.AuthzInvalid? || s.looks >= p0.env.maxPolls then MarkInvalid else Wait
    else
      var ch := FindChallenge(authz.challenges, WireChallenge(p0.row.challenge));
      if ch.None? then MarkInvalid
      else Present(Teardown(p0.row.challenge, ch.value.token, authz.host), ch.value.token + "." + p0.env.thumb)
  }

  /** The row was written: after which report decides. A write after anything else (a saved
      certificate, a failure) is the last. */
  function OnWrite(p0: Proc, s: Story, ok: bool): Action {
    if s.before.None? || !s.before.value.OrderReported? then Ending(s)
    else if s.before.value.req.Finalize? then Settle(p0, s)
    else if s.key.Some? then (if s.row.status == Invalid then MarkInvalid else Settle(p0, s))
    else if s.reports > 1 then MakeKey
    else if !ok then Ending(s)
    else if s.row.status == Pending then NextLook(s)
    else MakeKey
  }

  function Expected(p0: Proc, s: Story): Action {
    match s.last
    case None => if p0.phase.Starting? then AskDirectory else Post(FetchOrder(p0.row.orderURL))
    case Some(e) =>
      match e
      case DirectoryFetched(ok) => if ok then Insert(p0.row) else Nothing
      case RowInserted(_) => Post(NewOrder(p0.hostnames))
      case InsertFailed(_, _) => Nothing
      // Only the fetch that begins a resume leaves the row as it is.
      case PostFailed(req) => if req.FetchOrder? && s.reports == 0 then Nothing else MarkInvalid
      case OrderReported(_, _, _) => Write(s.row)
      case AuthzReported(_, authz) => if authz.status.AuthzValid? then NextLook(s) else OnLook(p0, s, authz)
      case Provisioned(_, _, o) =>
        var ch := FindChallenge(s.authz.challenges, WireChallenge(p0.row.challenge));
        if o.Presented? && ch.Some? then Post(AckChallenge(ch.value.url)) else MarkInvalid
      case ChallengeAcked(_) => if p0.env.maxPolls == 0 then MarkInvalid else Wait
      case Waited(cancelled) =>
        if s.key.None? then (if cancelled then MarkInvalid else NextLook(s))
        else if cancelled then Ending(s)
        else Post(FetchOrder(s.row.orderURL))
      case KeyBuilt(_, der) =>
        if s.row.status == Ready then Post(Finalize(s.row.finalizeURL, Encoded(der))) else Settle(p0, s)
      case KeyFailed => MarkInvalid
      case RowWritten(_, _, ok) => OnWrite(p0, s, ok)
      case ChainDownloaded(_, _) => ParseLeaf
      case LeafParsed(notAfter) =>
        if s.before.Some? && s.before.value.ChainDownloaded? && s.key.Some? && p0.hostnames != [] then
          Save(Cert(Lower(p0.hostnames[0]), s.before.value.chain, s.key.value.key, notAfter, s.row.id))
        else Nothing
      case LeafRejected => MarkInvalid
      case CertWritten(_, _, ok) => if ok then Write(s.row.(status := Valid)) else Ending(s)
      case KeyRejected => Ending(s)
      case TornDown(_) => Ending(s)
  }

  /** How a call that is over has ended. */
  function Ended(s: Story): Outcome {
    if s.saved.Some? then Issued(s.saved.value) else Failed
  }

  // -- The machine does that ------------------------------------------------

  predicate Facts(p0: Proc, s: Story, p: Proc) {
    && p.row == s.row && p.row.challenge == p0.row.challenge
    && p.hostnames == p0.hostnames && p.env == p0.env
    && p.authzs == s.listed && p.subject == s.key && p.teardowns == s.presented
    && (s.before.Some? ==> s.last.Some?)
  }

  /** What each phase says of the story. */
  predicate Place(p0: Proc, s: Story, p: Proc) {
    && (Stage(p.phase) <= 5 ==> s.key.None?)
    && (6 <= Stage(p.phase) <= 11 ==> s.key.Some?)
    && (Stage(p.phase) <= 12 ==> s.removed == 0)
    && (Stage(p.phase) <= 1 ==> s.presented == [] && s.validated == 0)
    && (Stage(p.phase) <= 10 ==> s.saved.None?)
    && (Stage(p.phase) == 0 ==> s.reports == 0)
    && (Stage(p.phase) == 1 ==> s.reports == 1)
    && (2 <= Stage(p.phase) <= 11 ==> s.reports > 0)
    && match p.phase
       case Starting => p0.phase.Starting? && s.last.None? && p.row == p0.row
       case Inserting => p.row == p0.row && s.last == Some(DirectoryFetched(true))
       case Refetching => !p0.phase.Starting? && s.last.None? && p.row == p0.row
       case PersistPlaced | PersistResumed | PersistRefreshed =>
         s.last.Some? && s.last.value.OrderReported? && !s.last.value.req.Finalize?
         && (p.phase.PersistRefreshed? ==> s.reports > 1)
       case PersistFinalized =>
         s.last.Some? && s.last.value.OrderReported? && s.last.value.req.Finalize? && s.polls == 0
       case PersistPolled(i) =>
         s.last.Some? && s.last.value.OrderReported? && s.last.value.req.FetchOrder? && s.polls == i + 1
       case Authorizing(k) => k == s.validated && k < |s.listed| && s.last.Some? && !s.last.value.Waited?
       case Provisioning(k, ch, host) =>
         k == s.validated && k < |s.listed| && host == s.authz.host
         && FindChallenge(s.authz.challenges, WireChallenge(p0.row.challenge)) == Some(ch)
       case Acking(k, _) =>
         k == s.validated && k < |s.listed| && s.last.Some? && s.last.value.Provisioned?
         && s.last.value.outcome.Presented?
       case AuthzWaiting(k, i) => k == s.validated && i == s.looks && k < |s.listed|
       case AuthzPolling(k, i) =>
         k == s.validated && i == s.looks && k < |s.listed| && s.last.Some? && s.last.value.Waited?
       case Finalizing(_) => s.polls == 0
       case Waiting(i) => i == s.polls
       case Polling(i) => i == s.polls
       case Parsing(chain) => s.last.Some? && s.last.value.ChainDownloaded? && s.last.value.chain == chain
       case Saving(_) => s.last.Some?
       case PersistSaved(cert) => s.last.Some? && s.last.value.CertWritten? && s.saved == Some(cert)
       case Marking => s.last.Some? && !s.last.value.OrderReported? && s.saved.None?
       case CleaningUp(j, o) => j == s.removed && j < |s.presented| && o == Ended(s)
       case Done(o) => s.removed == |s.presented| && o == Ended(s)
       case _ => true
  }

  predicate Follows(p0: Proc, s: Story, p: Proc) {
    Facts(p0, s, p) && Place(p0, s, p) && Due(p) == Expected(p0, s)
  }

  lemma FactsStep(p0: Proc, s: Story, p: Proc, e: Event)
    requires Follows(p0, s, p) && Answers(p, e)
    ensures Facts(p0, Told(s, e), After(p, e))
  {
  }

  lemma OnStarted(p0: Proc, s: Story, p: Proc, e: Event)
    requires Follows(p0, s, p) && Answers(p, e) && (e.DirectoryFetched? || e.RowInserted? || e.InsertFailed?)
    ensures Place(p0, Told(s, e), After(p, e)) && Due(After(p, e)) == Expected(p0, Told(s, e))
  {
    FactsStep(p0, s, p, e);
  }

  lemma OnPostFailed(p0: Proc, s: Story, p: Proc, e: Event)
    requires Follows(p0, s, p) && Answers(p, e) && (e.PostFailed?)
    ensures Place(p0, Told(s, e), After(p, e)) && Due(After(p, e)) == Expected(p0, Told(s, e))
  {
    FactsStep(p0, s, p, e);
  }

  lemma OnOrdered(p0: Proc, s: Story, p: Proc, e: Event)
    requires Follows(p0, s, p) && Answers(p, e) && (e.OrderReported?)
    ensures Place(p0, Told(s, e), After(p, e)) && Due(After(p, e)) == Expected(p0, Told(s, e))
  {
    FactsStep(p0, s, p, e);
  }

  lemma OnLooked(p0: Proc, s: Story, p: Proc, e: Event)
    requires Follows(p0, s, p) && Answers(p, e) && (e.AuthzReported?)
    ensures Place(p0, Told(s, e), After(p, e)) && Due(After(p, e)) == Expected(p0, Told(s, e))
  {
    FactsStep(p0, s, p, e);
  }

  lemma OnPresented(p0: Proc, s: Story, p: Proc, e: Event)
    requires Follows(p0, s, p) && Answers(p, e) && (e.Provisioned? || e.ChallengeAcked?)
    ensures Place(p0, Told(s, e), After(p, e)) && Due(After(p, e)) == Expected(p0, Told(s, e))
  {
    FactsStep(p0, s, p, e);
  }

  lemma OnWaitedFor(p0: Proc, s: Story, p: Proc, e: Event)
    requires Follows(p0, s, p) && Answers(p, e) && (e.Waited?)
    ensures Place(p0, Told(s, e), After(p, e)) && Due(After(p, e)) == Expected(p0, Told(s, e))
  {
    FactsStep(p0, s, p, e);
  }

  lemma OnKeyed(p0: Proc, s: Story, p: Proc, e: Event)
    requires Follows(p0, s, p) && Answers(p, e) && (e.KeyBuilt? || e.KeyFailed?)
    ensures Place(p0, Told(s, e), After(p, e)) && Due(After(p, e)) == Expected(p0, Told(s, e))
  {
    FactsStep(p0, s, p, e);
  }

  lemma OnPlacedWritten(p0: Proc, s: Story, p: Proc, e: Event)
    requires Follows(p0, s, p) && Answers(p, e) && e.RowWritten? && Stage(p.phase) <= 1
    ensures Place(p0, Told(s, e), After(p, e)) && Due(After(p, e)) == Expected(p0, Told(s, e))
  {
    FactsStep(p0, s, p, e);
  }

  lemma OnConfirmedWritten(p0: Proc, s: Story, p: Proc, e: Event)
    requires Follows(p0, s, p) && Answers(p, e) && e.RowWritten? && 1 < Stage(p.phase) <= 4
    ensures Place(p0, Told(s, e), After(p, e)) && Due(After(p, e)) == Expected(p0, Told(s, e))
  {
    FactsStep(p0, s, p, e);
  }

  lemma OnPolledWritten(p0: Proc, s: Story, p: Proc, e: Event)
    requires Follows(p0, s, p) && Answers(p, e) && e.RowWritten? && 5 <= Stage(p.phase) <= 8
    ensures Place(p0, Told(s, e), After(p, e)) && Due(After(p, e)) == Expected(p0, Told(s, e))
  {
    FactsStep(p0, s, p, e);
  }

  lemma OnLastWritten(p0: Proc, s: Story, p: Proc, e: Event)
    requires Follows(p0, s, p) && Answers(p, e) && e.RowWritten? && Stage(p.phase) > 8
    ensures Place(p0, Told(s, e), After(p, e)) && Due(After(p, e)) == Expected(p0, Told(s, e))
  {
    FactsStep(p0, s, p, e);
  }

  lemma OnRowWritten(p0: Proc, s: Story, p: Proc, e: Event)
    requires Follows(p0, s, p) && Answers(p, e) && e.RowWritten?
    ensures Place(p0, Told(s, e), After(p, e)) && Due(After(p, e)) == Expected(p0, Told(s, e))
  {
    hide Facts, Place, Due, Expected, Told, Answers, After;
    if Stage(p.phase) <= 1 {
      OnPlacedWritten(p0, s, p, e);
    } else if Stage(p.phase) <= 4 {
      OnConfirmedWritten(p0, s, p, e);
    } else if Stage(p.phase) <= 8 {
      OnPolledWritten(p0, s, p, e);
    } else {
      OnLastWritten(p0, s, p, e);
    }
  }

  lemma OnFetched(p0: Proc, s: Story, p: Proc, e: Event)
    requires Follows(p0, s, p) && Answers(p, e) && (e.ChainDownloaded? || e.LeafParsed? || e.LeafRejected?)
    ensures Place(p0, Told(s, e), After(p, e)) && Due(After(p, e)) == Expected(p0, Told(s, e))
  {
    FactsStep(p0, s, p, e);
  }

  lemma OnSaved(p0: Proc, s: Story, p: Proc, e: Event)
    requires Follows(p0, s, p) && Answers(p, e) && (e.CertWritten? || e.KeyRejected?)
    ensures Place(p0, Told(s, e), After(p, e)) && Due(After(p, e)) == Expected(p0, Told(s, e))
  {
    FactsStep(p0, s, p, e);
  }

  lemma OnRemoved(p0: Proc, s: Story, p: Proc, e: Event)
    requires Follows(p0, s, p) && Answers(p, e) && (e.TornDown?)
    ensures Place(p0, Told(s, e), After(p, e)) && Due(After(p, e)) == Expected(p0, Told(s, e))
  {
    FactsStep(p0, s, p, e);
  }

  lemma FollowsOn(p0: Proc, s: Story, p: Proc, e: Event)
    requires Follows(p0, s, p) && Answers(p, e)
    ensures Follows(p0, Told(s, e), After(p, e))
  {
    hide Facts, Place, Due, Expected, Told, Answers, After;
    FactsStep(p0, s, p, e);
    match e
    case DirectoryFetched(_) => OnStarted(p0, s, p, e);
    case RowInserted(_) => OnStarted(p0, s, p, e);
    case InsertFailed(_, _) => OnStarted(p0, s, p, e);
    case PostFailed(_) => OnPostFailed(p0, s, p, e);
    case OrderReported(_, _, _) => OnOrdered(p0, s, p, e);
    case AuthzReported(_, _) => OnLooked(p0, s, p, e);
    case Provisioned(_, _, _) => OnPresented(p0, s, p, e);
    case ChallengeAcked(_) => OnPresented(p0, s, p, e);
    case Waited(_) => OnWaitedFor(p0, s, p, e);
    case KeyBuilt(_, _) => OnKeyed(p0, s, p, e);
    case KeyFailed => OnKeyed(p0, s, p, e);
    case RowWritten(_, _, _) => OnRowWritten(p0, s, p, e);
    case ChainDownloaded(_, _) => OnFetched(p0, s, p, e);
    case LeafParsed(_) => OnFetched(p0, s, p, e);
    case LeafRejected => OnFetched(p0, s, p, e);
    case CertWritten(_, _, _) => OnSaved(p0, s, p, e);
    case KeyRejected => OnSaved(p0, s, p, e);
    case TornDown(_) => OnRemoved(p0, s, p, e);
  }

  lemma Begins(c: Config)
    requires Fresh(c)
    ensures Follows(c.proc, Untold(c.proc.row), c.proc)
  {
  }

  lemma {:induction false} FollowsAlways(c: Config, t: seq<Event>)
    requires Fresh(c) && IsRun(c, t)
    ensures Follows(c.proc, Heard(c.proc.row, t), Run(c, t).proc)
  {
    hide Answers, Enabled, After, Persist, Touch, Follows, Told, Untold;
    if t == [] {
      Begins(c);
    } else {
      FollowsAlways(c, Init(t));
      FollowsOn(c.proc, Heard(c.proc.row, Init(t)), Run(c, Init(t)).proc, Last(t));
    }
  }

  /** In every run, what is due next is what the events so far call for, to the last
      argument; and a call that is over has issued the certificate it saved, or failed. */
  lemma DueAsTold(c: Config, t: seq<Event>)
    requires Fresh(c) && IsRun(c, t)
    ensures Due(Run(c, t).proc) == Expected(c.proc, Heard(c.proc.row, t))
    ensures Run(c, t).proc.phase.Done? ==> Run(c, t).proc.phase.outcome == Ended(Heard(c.proc.row, t))
  {
    hide Answers, Enabled, After, Persist, Touch, Expected, Told, Due;
    FollowsAlways(c, t);
  }

  /** The row an Order call inserts: pending, for the lower-cased hosts and the type asked
      for, and without any URL. */
  lemma OrderInserts(c: Config, t: seq<Event>, e: Event, hosts: seq<string>, ct: ChallengeType, env: Env)
    requires c.proc == StartOrder(hosts, ct, env) && IsRun(c, t + [e]) && e.RowInserted?
    ensures e.row == OrderRow(e.row.id, LowerAll(hosts), Pending, "", "", "", ct, "")
  {
    hide Answers, Enabled, After, Persist, Touch, Follows, Told, Untold, Expected, LowerAll;
    RunOn(c, t, e);
    FollowsAlways(c, t);
    AtInsert(c.proc, Heard(c.proc.row, t), Run(c, t).proc, e);
  }

  lemma AtInsert(p0: Proc, s: Story, p: Proc, e: Event)
    requires Follows(p0, s, p) && Answers(p, e) && e.RowInserted?
    ensures e.row == p0.row.(id := e.row.id)
  {
    hide Expected;
  }

  /** When a challenge is acknowledged, the challenger of the call's type has just been told
      to answer it: the token with its key authorisation, the host with the certificate that
      carries it, or the host's record by the id the plugin gave it. */
  lemma AckedIsInPlace(c: Config, t: seq<Event>, e: Event)
    requires Fresh(c) && IsRun(c, t + [e])
    requires e.ChallengeAcked? || (e.PostFailed? && e.req.AckChallenge?)
    ensures t != [] && Last(t).Provisioned? && Last(t).outcome.Presented?
    ensures var w, p := Run(c, t).world, Last(t);
            match p.teardown.challenge
            case Http01 =>
              p.teardown.token != "" ==> p.teardown.token in w.tokens && w.tokens[p.teardown.token] == p.keyAuth
            case TlsAlpn01 => Lower(p.teardown.host) in w.alpn && w.alpn[Lower(p.teardown.host)] == p.keyAuth
            case Dns01 => Lower(p.teardown.host) in w.records && w.records[Lower(p.teardown.host)] == p.outcome.id
            case Unset => true
  {
    hide Answers, Enabled, After, Persist, Touch, Follows, Told, Untold, Expected;
    RunOn(c, t, e);
    FollowsAlways(c, t);
    AtAck(c.proc, Heard(c.proc.row, t), Run(c, t).proc, e);
    LastHeard(c.proc.row, t);
    RaisedNow(Run(c, Init(t)).world, Last(t), Run(c, Init(t)).proc.env.plugin);
  }

  lemma AtAck(p0: Proc, s: Story, p: Proc, e: Event)
    requires Follows(p0, s, p) && Answers(p, e) && (e.ChallengeAcked? || (e.PostFailed? && e.req.AckChallenge?))
    ensures s.last.Some? && s.last.value.Provisioned? && s.last.value.outcome.Presented?
  {
    hide Expected;
  }

  lemma LastHeard(row: OrderRow, t: seq<Event>)
    ensures Heard(row, t).last == if t == [] then None else Some(Last(t))
  {
  }

  lemma RaisedNow(w: Challengers, e: Event, plugin: string)
    requires e.Provisioned? && e.outcome.Presented?
    ensures var w', t := Touch(w, e, plugin), e.teardown;
            match t.challenge
            case Http01 => t.token != "" ==> t.token in w'.tokens && w'.tokens[t.token] == e.keyAuth
            case TlsAlpn01 => Lower(t.host) in w'.alpn && w'.alpn[Lower(t.host)] == e.keyAuth
            case Dns01 => Lower(t.host) in w'.records && w'.records[Lower(t.host)] == e.outcome.id
            case Unset => true
  {
    hide Lower;
  }
}
