/** What resuming an order does and does not recover: resumeOrder reads the status
    and the finalize URL of the order it fetches, and never its certificate URL. */
module AcmeResume {
  import opened AcmeTypes
  import opened Options
  import opened Base64Url
  import opened AcmeMachine
  import opened AcmeDrive

  // -- An order that is already valid ---------------------------------------

  predicate LostInv(reports: seq<Status>, p: Proc) {
    && p.row.certificateURL == ""
    && (reports == [] ==> p.phase.Refetching? || p.phase == Done(Failed))
    && (p.phase.Refetching? ==> p.teardowns == [] && reports == [])
    && (reports != [] && reports[0] == Valid ==>
          && p.row.status == Valid
          && (p.phase.PersistResumed? || p.phase.MakingKey? || p.phase.Marking?
              || p.phase == CleaningUp(0, Failed) || p.phase == Done(Failed))
          && p.teardowns == [])
  }

  lemma LostStepEarly(reports: seq<Status>, p: Proc, e: Event)
    requires LostInv(reports, p) && Answers(p, e)
    requires reports + ReportedBy(e) != [] ==> (reports + ReportedBy(e))[0] == Valid
    requires Stage(p.phase) <= 1
    ensures LostInv(reports + ReportedBy(e), After(p, e)) && !e.CertWritten?
  {
  }

  lemma LostStepLate(reports: seq<Status>, p: Proc, e: Event)
    requires LostInv(reports, p) && Answers(p, e)
    requires reports + ReportedBy(e) != [] ==> (reports + ReportedBy(e))[0] == Valid
    requires Stage(p.phase) > 1
    ensures LostInv(reports + ReportedBy(e), After(p, e)) && !e.CertWritten?
  {
  }

  lemma LostStep(reports: seq<Status>, p: Proc, e: Event)
    requires LostInv(reports, p) && Answers(p, e)
    requires reports + ReportedBy(e) != [] ==> (reports + ReportedBy(e))[0] == Valid
    ensures LostInv(reports + ReportedBy(e), After(p, e)) && !e.CertWritten?
  {
    hide Answers, NextPhase, NextRow, NextAuthzs, NextSubject, NextTeardowns, LostInv;
    if Stage(p.phase) <= 1 {
      LostStepEarly(reports, p, e);
    } else {
      LostStepLate(reports, p, e);
    }
  }

  /** A resumed order that the server reports valid yields no certificate unless the
      row already carried its URL. */
  lemma {:induction false} ValidOrderIsLost(c: Config, t: seq<Event>, row: OrderRow, env: Env)
    requires IsRun(c, t) && c.proc == StartResume(row, env) && row.certificateURL == ""
    requires Reported(t) != [] ==> Reported(t)[0] == Valid
    ensures LostInv(Reported(t), Run(c, t).proc)
    ensures forall e :: e in t ==> !e.CertWritten?
    ensures Run(c, t).proc.phase.Done? ==> Run(c, t).proc.phase.outcome == Failed
  {
    hide Answers, Enabled, After, Persist, Touch, LostInv, ReportedBy, StartResume;
    if t == [] {
      LostStart(row, env);
    } else {
      ValidOrderIsLost(c, Init(t), row, env);
      LostStep(Reported(Init(t)), Run(c, Init(t)).proc, Last(t));
      NoneAdded(t);
    }
    LostEnd(Reported(t), Run(c, t).proc);
  }

  lemma NoneAdded(t: seq<Event>)
    requires t != [] && !Last(t).CertWritten? && forall e :: e in Init(t) ==> !e.CertWritten?
    ensures forall e :: e in t ==> !e.CertWritten?
  {
    assert t == Init(t) + [Last(t)];
  }

  lemma LostStart(row: OrderRow, env: Env)
    requires row.certificateURL == ""
    ensures LostInv([], StartResume(row, env))
  {
  }

  lemma LostEnd(reports: seq<Status>, p: Proc)
    requires LostInv(reports, p) && (reports != [] ==> reports[0] == Valid)
    ensures p.phase.Done? ==> p.phase.outcome == Failed
  {
  }

  /** A report of the order's status and nothing else. */
  function Report(row: OrderRow, s: Status): Event {
    OrderReported(FetchOrder(row.orderURL), OrderDoc(s, [], "", ""), "")
  }

  function Resumed(row: OrderRow, s: Status, env: Env): Proc {
    Proc(PersistResumed, row.(status := s), row.hostnames, [], None, [], env)
  }

  lemma ResumedSteps(row: OrderRow, s: Status, env: Env)
    requires row.orderURL != ""
    ensures Answers(StartResume(row, env), Report(row, s))
    ensures After(StartResume(row, env), Report(row, s)) == Resumed(row, s, env)
    ensures Answers(Resumed(row, s, env), RowWritten(row.(status := s), true, true))
  {
  }

  lemma Extend(c: Config, t: seq<Event>, b: Config, e: Event)
    requires IsRun(c, t) && Run(c, t) == b && Possible(b, e)
    ensures IsRun(c, t + [e]) && Run(c, t + [e]) == Exec(b, e)
    ensures KeysBuilt(t + [e]) == KeysBuilt(t) + KeysBuiltBy(e)
    ensures Finalized(t + [e]) == Finalized(t) + FinalizedBy(e)
  {
    RunOn(c, t, e);
    assert Init(t + [e]) == t && Last(t + [e]) == e;
  }

  /** From a resumed row that is valid straight to the download: a new key, no finalize. */
  lemma DownloadSteps(row: OrderRow, env: Env, key: Key, der: seq<byte>)
    requires row.certificateURL != ""
    ensures var p1 := Resumed(row, Valid, env);
            var p2 := p1.(phase := MakingKey);
            && After(p1, RowWritten(row.(status := Valid), true, true)) == p2
            && Answers(p2, KeyBuilt(key, der))
            && After(p2, KeyBuilt(key, der)) == p2.(phase := Downloading, subject := Some(SubjectKey(key, der)))
  {
    hide Answers;
    MakesKey(Resumed(row, Valid, env).(phase := MakingKey), key, der);
  }

  lemma MakesKey(p: Proc, key: Key, der: seq<byte>)
    requires p.phase.MakingKey?
    ensures Answers(p, KeyBuilt(key, der))
  {
  }

  lemma ToDownload(c: Config, row: OrderRow, env: Env, key: Key, der: seq<byte>) returns (t: seq<Event>)
    requires c.proc == StartResume(row, env) && row.id in c.store.orders
    requires row.orderURL != "" && row.certificateURL != ""
    ensures IsRun(c, t) && KeysBuilt(t) == [SubjectKey(key, der)] && Finalized(t) == []
    ensures Run(c, t).proc ==
              Proc(Downloading, row.(status := Valid), row.hostnames, [], Some(SubjectKey(key, der)), [], env)
  {
    assert IsRun(c, []) && Run(c, []) == c && KeysBuilt([]) == [] && Finalized([]) == [];
    hide Answers, After, Touch, StartResume, IsRun, Run, KeysBuilt, Finalized;
    ResumedSteps(row, Valid, env);
    DownloadSteps(row, env, key, der);
    var e1, e2, e3 := Report(row, Valid), RowWritten(row.(status := Valid), true, true), KeyBuilt(key, der);
    var c1 := Exec(c, e1);
    var c2 := Exec(c1, e2);
    Extend(c, [], c, e1);
    Extend(c, [] + [e1], c1, e2);
    Extend(c, [] + [e1] + [e2], c2, e3);
    t := [] + [e1] + [e2] + [e3];
  }

  /** The steps from the download to the saved certificate. */
  lemma SaveSteps(p: Proc, chain: string, cert: Cert)
    requires p.phase == Downloading && p.subject.Some? && p.hostnames != []
    requires cert == Cert(Lower(p.hostnames[0]), chain, p.subject.value.key, cert.notAfter, p.row.id)
    ensures var p1, p2 := p.(phase := Parsing(chain)), p.(phase := Saving(cert));
            var e1, e2 := ChainDownloaded(p.row.certificateURL, chain), LeafParsed(cert.notAfter);
            && Answers(p, e1) && After(p, e1) == p1
            && Answers(p1, e2) && After(p1, e2) == p2
            && Answers(p2, CertWritten(cert, true, true))
  {
    hide Lower;
  }

  lemma ToSaved(c: Config, t0: seq<Event>, b: Config, cert: Cert) returns (t: seq<Event>)
    requires IsRun(c, t0) && Run(c, t0) == b
    requires b.proc.phase == Downloading && b.proc.subject.Some? && b.proc.hostnames != []
    requires cert == Cert(Lower(b.proc.hostnames[0]), cert.chain, b.proc.subject.value.key, cert.notAfter,
                          b.proc.row.id)
    ensures IsRun(c, t) && CertWritten(cert, true, true) in t
    ensures KeysBuilt(t) == KeysBuilt(t0) && Finalized(t) == Finalized(t0)
  {
    hide Answers, After, Touch, Persist, IsRun, Run, KeysBuilt, Finalized, Lower;
    SaveSteps(b.proc, cert.chain, cert);
    var e1, e2 := ChainDownloaded(b.proc.row.certificateURL, cert.chain), LeafParsed(cert.notAfter);
    var e3 := CertWritten(cert, true, true);
    var c1 := Exec(b, e1);
    var c2 := Exec(c1, e2);
    Extend(c, t0, b, e1);
    Extend(c, t0 + [e1], c1, e2);
    Extend(c, t0 + [e1] + [e2], c2, e3);
    t := t0 + [e1] + [e2] + [e3];
    assert t[|t| - 1] == e3;
  }

  /** With the URL in the row, a resumed valid order does yield a certificate, saved
      with a key the CA has never seen. */
  lemma ValidOrderSavesUnsentKey(c: Config, row: OrderRow, env: Env, key: Key, der: seq<byte>, chain: string)
    returns (t: seq<Event>, cert: Cert)
    requires c.proc == StartResume(row, env) && row.id in c.store.orders && row.hostnames != []
    requires row.orderURL != "" && row.certificateURL != ""
    ensures IsRun(c, t) && CertWritten(cert, true, true) in t && cert.key == key && cert.chain == chain
    ensures KeysBuilt(t) == [SubjectKey(key, der)] && Finalized(t) == []
  {
    hide Answers, After, Touch, Persist, Enabled, Lower;
    var t0 := ToDownload(c, row, env, key, der);
    cert := Cert(Lower(row.hostnames[0]), chain, key, 0, row.id);
    t := ToSaved(c, t0, Run(c, t0), cert);
  }

  // -- A renewal over dns-01 ------------------------------------------------

  predicate Unanswered(p: Proc) {
    && p.env.plugin == ""
    && p.row.challenge == Dns01
    && p.teardowns == []
    && !p.phase.Acking? && !p.phase.AuthzWaiting? && !p.phase.AuthzPolling?
  }

  lemma UnansweredStep(p: Proc, w: Challengers, e: Event)
    requires Unanswered(p) && Answers(p, e)
    ensures Unanswered(After(p, e)) && Touch(w, e, p.env.plugin) == w
    ensures !e.ChallengeAcked? && (e.Provisioned? ==> e.outcome == Refused)
  {
  }

  /** A dns-01 call without a plugin name presents and acknowledges nothing. */
  lemma {:induction false} NoPluginNoChallenge(c: Config, t: seq<Event>)
    requires IsRun(c, t) && Fresh(c) && c.proc.env.plugin == "" && c.proc.row.challenge == Dns01
    ensures Unanswered(Run(c, t).proc) && Run(c, t).world == c.world
    ensures forall e :: e in t ==> !e.ChallengeAcked? && (e.Provisioned? ==> e.outcome == Refused)
  {
    hide Answers, Enabled, After, Persist, Touch;
    if t != [] {
      NoPluginNoChallenge(c, Init(t));
      UnansweredStep(Run(c, Init(t)).proc, c.world, Last(t));
      assert t == Init(t) + [Last(t)];
    }
  }

  predicate IsSaved(t: seq<Event>) {
    exists e :: e in t && e.CertWritten?
  }

  /** Every authorisation was valid when it was looked at. */
  predicate AllValid(t: seq<Event>) {
    forall e :: e in t && e.AuthzReported? ==> e.authz.status.AuthzValid?
  }

  /** Every authorisation of an order that began pending was reported valid. */
  predicate ListedValid(doc: Option<OrderDoc>, valid: set<string>) {
    && doc.Some?
    && (doc.value.status == Pending ==> forall u :: u in doc.value.authorizations ==> u in valid)
  }

  /** An authorisation that is not valid leads to a challenge that cannot be presented. */
  lemma NotValidFails(p: Proc, e: Event)
    requires Unanswered(p) && Answers(p, e)
    ensures e.AuthzReported? ==> Stage(p.phase) == 2 && !p.phase.Provisioning?
    ensures e.AuthzReported? && !e.authz.status.AuthzValid? ==>
              NextPhase(p, e).Provisioning? || Stage(NextPhase(p, e)) >= 12
    ensures p.phase.Provisioning? ==> Stage(NextPhase(p, e)) >= 12
    ensures e.CertWritten? ==> Stage(p.phase) == 10 && Stage(NextPhase(p, e)) >= 11
  {
  }

  predicate RenewalInv(t: seq<Event>, doc: Option<OrderDoc>, valid: set<string>, p: Proc) {
    && (Stage(p.phase) < 12 && !p.phase.Provisioning? ==> AllValid(t))
    && (IsSaved(t) ==> AllValid(t) && ListedValid(doc, valid) && Stage(p.phase) >= 11)
  }

  lemma RenewalStep(t: seq<Event>, doc: Option<OrderDoc>, valid: set<string>, p: Proc, e: Event)
    requires RenewalInv(t, doc, valid, p) && AuthzInv(doc, valid, p) && Unanswered(p) && Answers(p, e)
    ensures RenewalInv(t + [e], FirstDocWith(doc, e), valid + ValidAuthzsBy(e), After(p, e))
  {
    hide Answers, NextPhase, NextRow, NextAuthzs, NextSubject, NextTeardowns, Unanswered;
    StageGrows(p, e);
    NotValidFails(p, e);
    assert IsSaved(t + [e]) <==> IsSaved(t) || e.CertWritten?;
    assert AllValid(t + [e]) <==> AllValid(t) && (e.AuthzReported? ==> e.authz.status.AuthzValid?);
  }

  lemma {:induction false} RenewalInvHolds(c: Config, t: seq<Event>)
    requires IsRun(c, t) && Fresh(c) && c.proc.env.plugin == "" && c.proc.row.challenge == Dns01
    ensures RenewalInv(t, FirstDoc(t), ValidAuthzs(t), Run(c, t).proc)
  {
    hide Answers, Enabled, After, Persist, Touch, AuthzInv, Unanswered, RenewalInv;
    if t == [] {
      NothingSaved(c.proc);
    } else {
      RenewalInvHolds(c, Init(t));
      NoPluginNoChallenge(c, Init(t));
      AuthzInvHolds(c, Init(t));
      RenewalStep(Init(t), FirstDoc(Init(t)), ValidAuthzs(Init(t)), Run(c, Init(t)).proc, Last(t));
      assert t == Init(t) + [Last(t)];
    }
  }

  lemma NothingSaved(p: Proc)
    ensures RenewalInv([], None, {}, p)
  {
  }

  /** A dns-01 call without a plugin name saves a certificate only if every authorisation
      was valid already: each one looked at was reported valid, and each one listed was
      looked at if the order began pending. The renewal pass makes exactly such calls
      for certificates first obtained by dns-01. */
  lemma RenewedOnlyIfValid(c: Config, t: seq<Event>)
    requires IsRun(c, t) && Fresh(c) && c.proc.env.plugin == "" && c.proc.row.challenge == Dns01
    requires exists e :: e in t && e.CertWritten?
    ensures forall e :: e in t && e.AuthzReported? ==> e.authz.status.AuthzValid?
    ensures FirstDoc(t).Some?
    ensures FirstDoc(t).value.status == Pending ==>
              forall u :: u in FirstDoc(t).value.authorizations ==> u in ValidAuthzs(t)
  {
    hide Answers, Enabled, After, Persist, Touch;
    RenewalInvHolds(c, t);
    assert IsSaved(t);
  }
}
