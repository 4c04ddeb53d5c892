/** What a drive leaves behind in the challengers: challengeCleanup of
    internal/acme/order.go against the maps of the three challengers. */
module AcmeCleanup {
  import opened AcmeTypes
  import opened AcmeMachine
  import opened AcmeDrive

  /** The key a challenger files a challenge under. */
  function KeyOf(t: Teardown): string {
    if t.challenge.Http01? then t.token else Lower(t.host)
  }

  function MapOf(w: Challengers, ct: ChallengeType): map<string, string> {
    match ct
    case Http01 => w.tokens
    case TlsAlpn01 => w.alpn
    case Dns01 => w.records
    case Unset => map[]
  }

  function KeysOf(ts: seq<Teardown>, ct: ChallengeType): set<string> {
    set t | t in ts && t.challenge == ct :: KeyOf(t)
  }

  /** The challenges a run presented, in order. */
  function Presents(t: seq<Event>): seq<Teardown> {
    if t == [] then [] else Presents(Init(t)) + PresentsBy(Last(t))
  }

  function PresentsBy(e: Event): seq<Teardown> {
    if e.Provisioned? && e.outcome.Presented? then [e.teardown] else []
  }

  /** The dns-01 keys whose record was created and then abandoned. */
  function Abandons(t: seq<Event>): set<string> {
    if t == [] then {} else Abandons(Init(t)) + AbandonsBy(Last(t))
  }

  function AbandonsBy(e: Event): set<string> {
    if e.Provisioned? && e.outcome.Abandoned? then {Lower(e.teardown.host)} else {}
  }

  lemma {:induction false} TeardownsArePresents(c: Config, t: seq<Event>)
    requires Fresh(c) && IsRun(c, t)
    ensures Run(c, t).proc.teardowns == Presents(t)
  {
    hide Answers, Enabled, Persist, Touch, NextPhase, NextRow, NextSubject, NextAuthzs;
    if t != [] {
      TeardownsArePresents(c, Init(t));
    }
  }

  /** How many cleanup closures have run. */
  function Progress(p: Proc): nat {
    match p.phase
    case CleaningUp(j, _) => if j < |p.teardowns| then j else |p.teardowns|
    case Done(_) => |p.teardowns|
    case _ => 0
  }

  // -- http-01 and tls-alpn-01: nothing stays, nothing else changes ----------

  ghost predicate SameBut(m: map<string, string>, m0: map<string, string>, ks: set<string>) {
    forall k :: k !in ks ==> (k in m <==> k in m0) && (k in m ==> m[k] == m0[k])
  }

  ghost predicate EntryInv(ct: ChallengeType, m0: map<string, string>, m: map<string, string>, loose: set<string>,
                           p: Proc) {
    && (forall t :: t in p.teardowns && t.challenge.Dns01? ==> p.env.plugin != "")
    && SameBut(m, m0, KeysOf(p.teardowns, ct) + loose)
    && (forall k :: k in KeysOf(p.teardowns[..Progress(p)], ct) ==> k !in m)
  }

  lemma EntryInvStep(ct: ChallengeType, m0: map<string, string>, w: Challengers, loose: set<string>, p: Proc, e: Event)
    requires EntryInv(ct, m0, MapOf(w, ct), loose, p) && Answers(p, e)
    ensures EntryInv(ct, m0, MapOf(Touch(w, e, p.env.plugin), ct),
                     if ct.Dns01? then loose + AbandonsBy(e) else loose, After(p, e))
  {
    hide Answers, NextPhase, NextRow, NextAuthzs, NextSubject, NextTeardowns, EntryInv, Touch;
    if e.Provisioned? {
      EntryRaised(ct, m0, w, loose, p, e);
    } else if e.TornDown? {
      EntryRazed(ct, m0, w, loose, p, e);
      assert loose + AbandonsBy(e) == loose;
    } else {
      EntryKept(ct, m0, w, loose, p, e);
    }
  }

  lemma EntryKept(ct: ChallengeType, m0: map<string, string>, w: Challengers, loose: set<string>, p: Proc, e: Event)
    requires EntryInv(ct, m0, MapOf(w, ct), loose, p) && Answers(p, e) && !e.Provisioned? && !e.TornDown?
    ensures EntryInv(ct, m0, MapOf(Touch(w, e, p.env.plugin), ct),
                     if ct.Dns01? then loose + AbandonsBy(e) else loose, After(p, e))
  {
    hide Answers, NextPhase, NextRow, NextAuthzs, NextSubject, Progress;
    NoProgress(p, e);
  }

  lemma NoProgress(p: Proc, e: Event)
    requires Answers(p, e) && !e.TornDown?
    ensures Progress(After(p, e)) == Progress(p)
  {
    StageGrows(p, e);
  }

  /** Teardowns run one after the other. */
  lemma TornDownAt(p: Proc, e: Event)
    requires Answers(p, e) && e.TornDown?
    ensures Progress(p) < |p.teardowns| && e.teardown == p.teardowns[Progress(p)]
    ensures Progress(After(p, e)) == Progress(p) + 1 && After(p, e).teardowns == p.teardowns
  {
  }

  lemma RaiseTouches(ct: ChallengeType, w: Challengers, t: Teardown, keyAuth: string, o: Provision)
    ensures SameBut(MapOf(Raise(w, t, keyAuth, o), ct), MapOf(w, ct),
                    if t.challenge == ct && !o.Refused? then {KeyOf(t)} else {})
  {
  }

  lemma RazeTouches(ct: ChallengeType, w: Challengers, t: Teardown, plugin: string)
    ensures SameBut(MapOf(Raze(w, t, plugin), ct), MapOf(w, ct), if t.challenge == ct then {KeyOf(t)} else {})
    ensures forall k :: k in MapOf(Raze(w, t, plugin), ct) ==> k in MapOf(w, ct)
    ensures t.challenge == ct && (ct.Dns01? ==> plugin != "") ==> KeyOf(t) !in MapOf(Raze(w, t, plugin), ct)
  {
  }

  lemma SameButChain(m: map<string, string>, m1: map<string, string>, m0: map<string, string>,
                     a: set<string>, b: set<string>, c: set<string>)
    requires SameBut(m, m1, a) && SameBut(m1, m0, b) && a <= c && b <= c
    ensures SameBut(m, m0, c)
  {
  }

  lemma KeysOfSnoc(ts: seq<Teardown>, t: Teardown, ct: ChallengeType)
    ensures KeysOf(ts + [t], ct) == KeysOf(ts, ct) + (if t.challenge == ct then {KeyOf(t)} else {})
  {
  }

  lemma KeysOfPrefix(ts: seq<Teardown>, j: nat, ct: ChallengeType)
    requires j < |ts|
    ensures KeysOf(ts[..j + 1], ct) == KeysOf(ts[..j], ct) + (if ts[j].challenge == ct then {KeyOf(ts[j])} else {})
    ensures ts[j].challenge == ct ==> KeyOf(ts[j]) in KeysOf(ts, ct)
  {
    assert ts[..j + 1] == ts[..j] + [ts[j]];
    KeysOfSnoc(ts[..j], ts[j], ct);
    assert ts[j] in ts;
  }

  lemma EntryRaised(ct: ChallengeType, m0: map<string, string>, w: Challengers, loose: set<string>, p: Proc, e: Event)
    requires EntryInv(ct, m0, MapOf(w, ct), loose, p) && Answers(p, e) && e.Provisioned?
    ensures EntryInv(ct, m0, MapOf(Touch(w, e, p.env.plugin), ct),
                     if ct.Dns01? then loose + AbandonsBy(e) else loose, After(p, e))
  {
    var q, t := After(p, e), e.teardown;
    var hit := if t.challenge == ct && !e.outcome.Refused? then {KeyOf(t)} else {};
    var loose' := if ct.Dns01? then loose + AbandonsBy(e) else loose;
    RaiseTouches(ct, w, t, e.keyAuth, e.outcome);
    KeysOfSnoc(p.teardowns, t, ct);
    SameButChain(MapOf(Raise(w, t, e.keyAuth, e.outcome), ct), MapOf(w, ct), m0, hit,
                 KeysOf(p.teardowns, ct) + loose, KeysOf(q.teardowns, ct) + loose');
    assert Progress(q) == 0;
  }

  lemma EntryRazed(ct: ChallengeType, m0: map<string, string>, w: Challengers, loose: set<string>, p: Proc, e: Event)
    requires EntryInv(ct, m0, MapOf(w, ct), loose, p) && Answers(p, e) && e.TornDown?
    ensures EntryInv(ct, m0, MapOf(Touch(w, e, p.env.plugin), ct), loose, After(p, e))
  {
    hide Answers, NextPhase, NextRow, NextAuthzs, NextSubject, Progress, KeysOf, MapOf, Raze;
    TornDownAt(p, e);
    var j := Progress(p);
    var t := p.teardowns[j];
    var ks := KeysOf(p.teardowns, ct) + loose;
    KeysOfPrefix(p.teardowns, j, ct);
    RazeTouches(ct, w, t, p.env.plugin);
    SameButChain(MapOf(Raze(w, t, p.env.plugin), ct), MapOf(w, ct), m0,
                 if t.challenge == ct then {KeyOf(t)} else {}, ks, ks);
    assert t in p.teardowns;
  }

  lemma {:induction false} EntryInvHolds(ct: ChallengeType, c: Config, t: seq<Event>)
    requires Fresh(c) && IsRun(c, t)
    ensures EntryInv(ct, MapOf(c.world, ct), MapOf(Run(c, t).world, ct),
                     if ct.Dns01? then Abandons(t) else {}, Run(c, t).proc)
  {
    hide Answers, Enabled, After, Persist, Touch;
    if t != [] {
      var b := Run(c, Init(t));
      EntryInvHolds(ct, c, Init(t));
      EntryInvStep(ct, MapOf(c.world, ct), b.world, if ct.Dns01? then Abandons(Init(t)) else {}, b.proc, Last(t));
    } else {
      assert KeysOf([], ct) == {};
    }
  }

  lemma AllRemoved(m: map<string, string>, m0: map<string, string>, ks: set<string>)
    requires SameBut(m, m0, ks) && forall k :: k in ks ==> k !in m
    ensures m == m0 - ks
  {
    assert m.Keys == (m0 - ks).Keys;
  }

  lemma AtDone(ct: ChallengeType, m0: map<string, string>, m: map<string, string>, loose: set<string>, p: Proc)
    requires EntryInv(ct, m0, m, loose, p) && p.phase.Done?
    ensures forall k :: k in KeysOf(p.teardowns, ct) ==> k !in m
    ensures loose == {} ==> m == m0 - KeysOf(p.teardowns, ct)
  {
    var ts := p.teardowns;
    assert ts[..|ts|] == ts;
    if loose == {} {
      assert KeysOf(ts, ct) + loose == KeysOf(ts, ct);
      AllRemoved(m, m0, KeysOf(ts, ct));
    }
  }

  /** On every exit (success, error, cancellation, poll timeout) the http-01 tokens
      and the tls-alpn-01 certificates are those from before the drive, less the
      entries the drive presented. */
  lemma NothingLeftBehind(c: Config, t: seq<Event>)
    requires Fresh(c) && IsRun(c, t) && Run(c, t).proc.phase.Done?
    ensures Run(c, t).world.tokens == c.world.tokens - KeysOf(Presents(t), Http01)
    ensures Run(c, t).world.alpn == c.world.alpn - KeysOf(Presents(t), TlsAlpn01)
  {
    hide Answers, Enabled, After, Persist, Touch;
    var d := Run(c, t);
    TeardownsArePresents(c, t);
    EntryInvHolds(Http01, c, t);
    AtDone(Http01, c.world.tokens, d.world.tokens, {}, d.proc);
    EntryInvHolds(TlsAlpn01, c, t);
    AtDone(TlsAlpn01, c.world.alpn, d.world.alpn, {}, d.proc);
  }

  /** The dns-01 records: those presented are forgotten, all others are as before,
      except one whose propagation wait was cancelled. */
  lemma RecordsLeftBehind(c: Config, t: seq<Event>)
    requires Fresh(c) && IsRun(c, t) && Run(c, t).proc.phase.Done?
    ensures forall host :: host in KeysOf(Presents(t), Dns01) ==> host !in Run(c, t).world.records
    ensures SameBut(Run(c, t).world.records, c.world.records, KeysOf(Presents(t), Dns01) + Abandons(t))
  {
    hide Answers, Enabled, After, Persist, Touch;
    var d := Run(c, t);
    TeardownsArePresents(c, t);
    EntryInvHolds(Dns01, c, t);
    AtDone(Dns01, c.world.records, d.world.records, Abandons(t), d.proc);
  }
}
