/** Which dns.cleanup calls a dns-01 drive makes. The challenger remembers one
    record id per lower-cased host, so two authorisations for one host (a name
    and its wildcard) lose the first id. */
module AcmeDns {
  import opened AcmeTypes
  import opened AcmeMachine
  import opened AcmeDrive
  import opened AcmeCleanup

  /** A record the plugin created: where the challenger files it, and its id. */
  datatype Record = Record(host: string, id: string)

  predicate Distinct(s: seq<string>) {
    forall i, j :: 0 <= i < j < |s| ==> s[i] != s[j]
  }

  function Hosts(rs: seq<Record>): (hs: seq<string>)
    ensures |hs| == |rs|
    ensures forall i :: 0 <= i < |rs| ==> hs[i] == rs[i].host
  {
    seq(|rs|, i requires 0 <= i < |rs| => rs[i].host)
  }

  function Ids(rs: seq<Record>): (ids: seq<string>)
    ensures |ids| == |rs|
    ensures forall i :: 0 <= i < |rs| ==> ids[i] == rs[i].id
  {
    seq(|rs|, i requires 0 <= i < |rs| => rs[i].id)
  }

  /** The records whose Provision returned nil, in order. */
  function Kept(t: seq<Event>): seq<Record> {
    if t == [] then [] else Kept(Init(t)) + KeptBy(Last(t))
  }

  function KeptBy(e: Event): seq<Record> {
    if e.Provisioned? && e.outcome.Presented? then [Record(Lower(e.teardown.host), e.outcome.id)] else []
  }

  /** The record, if any, that was created although Provision returned an error. */
  function Lost(t: seq<Event>): seq<Record> {
    if t == [] then [] else Lost(Init(t)) + LostBy(Last(t))
  }

  function LostBy(e: Event): seq<Record> {
    if e.Provisioned? && e.outcome.Abandoned? then [Record(Lower(e.teardown.host), e.outcome.id)] else []
  }

  /** The id filed last under a host. */
  function FinalId(rs: seq<Record>, host: string): string {
    if rs == [] then ""
    else if Last(rs).host == host then Last(rs).id
    else FinalId(Init(rs), host)
  }

  /** The ids passed to dns.cleanup when the closures for these hosts run in
      order: the first closure for a host finds its id and forgets it. */
  function Calls(rs: seq<Record>, hs: seq<string>): seq<string> {
    if hs == [] then []
    else Calls(rs, Init(hs)) + (if Last(hs) in Init(hs) then [] else [FinalId(rs, Last(hs))])
  }

  // -- The calls are right exactly when the hosts are distinct ---------------

  lemma {:induction false} FinalIdUnique(rs: seq<Record>, i: nat)
    requires i < |rs| && Distinct(Hosts(rs))
    ensures FinalId(rs, rs[i].host) == rs[i].id
  {
    if i < |rs| - 1 {
      assert Hosts(rs)[i] != Hosts(rs)[|rs| - 1];
      assert Hosts(Init(rs)) == Init(Hosts(rs));
      FinalIdUnique(Init(rs), i);
    }
  }

  lemma {:induction false} CallsOfDistinct(rs: seq<Record>, hs: seq<string>)
    requires Distinct(hs)
    ensures |Calls(rs, hs)| == |hs|
    ensures forall i :: 0 <= i < |hs| ==> Calls(rs, hs)[i] == FinalId(rs, hs[i])
  {
    if hs != [] {
      CallsOfDistinct(rs, Init(hs));
    }
  }

  lemma {:induction false} CallsCount(rs: seq<Record>, hs: seq<string>)
    ensures |Calls(rs, hs)| <= |hs|
    ensures |Calls(rs, hs)| == |hs| ==> Distinct(hs)
  {
    if hs != [] {
      CallsCount(rs, Init(hs));
    }
  }

  /** What it takes for the calls to be those of the kept records: no two of them share a
      host, and one that shares its host with the lost record has the same id. */
  predicate Apart(kept: seq<Record>, lost: seq<Record>) {
    && Distinct(Hosts(kept))
    && forall i :: 0 <= i < |kept| && lost != [] && kept[i].host == lost[0].host ==> kept[i].id == lost[0].id
  }

  lemma FinalIdWithLost(kept: seq<Record>, lost: seq<Record>, host: string)
    requires |lost| <= 1
    ensures FinalId(kept + lost, host) == if lost != [] && lost[0].host == host then lost[0].id else FinalId(kept, host)
  {
    if lost == [] {
      assert kept + lost == kept;
    } else {
      assert Init(kept + lost) == kept && Last(kept + lost) == lost[0];
    }
  }

  lemma CallsExact(kept: seq<Record>, lost: seq<Record>)
    requires |lost| <= 1
    ensures Calls(kept + lost, Hosts(kept)) == Ids(kept) <==> Apart(kept, lost)
  {
    var rs, hs := kept + lost, Hosts(kept);
    CallsCount(rs, hs);
    if Distinct(hs) {
      CallsOfDistinct(rs, hs);
      forall i | 0 <= i < |kept|
        ensures Calls(rs, hs)[i] == if lost != [] && lost[0].host == kept[i].host then lost[0].id else kept[i].id
      {
        FinalIdWithLost(kept, lost, kept[i].host);
        FinalIdUnique(kept, i);
      }
    }
  }

  // -- A dns-01 drive makes those calls --------------------------------------

  /** After n closures have run: the challenger still remembers the hosts to come,
      each with the id filed last, and has passed on those of the hosts so far. */
  ghost predicate DnsInv(kept: seq<Record>, lost: seq<Record>, w0: Challengers, w: Challengers, n: nat)
    requires n <= |kept|
  {
    var rs, hs := kept + lost, Hosts(kept);
    && (forall h :: h in Hosts(rs) ==> (h in w.records <==> h !in hs[..n]))
    && (forall h :: h in Hosts(rs) && h in w.records ==> w.records[h] == FinalId(rs, h))
    && w.cleaned == w0.cleaned + Calls(rs, hs[..n])
  }

  /** How the records relate to the call's own state. */
  predicate DnsState(kept: seq<Record>, lost: seq<Record>, p: Proc) {
    && p.row.challenge.Dns01?
    && |p.teardowns| == |kept|
    && (forall i :: 0 <= i < |kept| ==>
          p.teardowns[i].challenge.Dns01? && Lower(p.teardowns[i].host) == kept[i].host)
    && (kept != [] ==> p.env.plugin != "")
    && |lost| <= 1
    && (Stage(p.phase) < 12 ==> lost == [])
  }

  lemma DnsStateStepEarly(kept: seq<Record>, lost: seq<Record>, p: Proc, e: Event)
    requires DnsState(kept, lost, p) && Answers(p, e)
    requires Stage(p.phase) <= 2
    ensures DnsState(kept + KeptBy(e), lost + LostBy(e), After(p, e))
    ensures Progress(After(p, e)) == if e.TornDown? then Progress(p) + 1 else Progress(p)
    ensures Touchable(kept, lost, Progress(p), e, p.env.plugin)
  {
    StageGrows(p, e);
  }

  lemma DnsStateStepLate(kept: seq<Record>, lost: seq<Record>, p: Proc, e: Event)
    requires DnsState(kept, lost, p) && Answers(p, e)
    requires Stage(p.phase) > 2
    ensures DnsState(kept + KeptBy(e), lost + LostBy(e), After(p, e))
    ensures Progress(After(p, e)) == if e.TornDown? then Progress(p) + 1 else Progress(p)
    ensures Touchable(kept, lost, Progress(p), e, p.env.plugin)
  {
    StageGrows(p, e);
  }

  lemma DnsStateStep(kept: seq<Record>, lost: seq<Record>, p: Proc, e: Event)
    requires DnsState(kept, lost, p) && Answers(p, e)
    ensures DnsState(kept + KeptBy(e), lost + LostBy(e), After(p, e))
    ensures Progress(After(p, e)) == if e.TornDown? then Progress(p) + 1 else Progress(p)
    ensures Touchable(kept, lost, Progress(p), e, p.env.plugin)
  {
    hide Answers, NextPhase, NextRow, NextAuthzs, NextSubject, NextTeardowns, DnsState, Progress, Touchable;
    if Stage(p.phase) <= 2 {
      DnsStateStepEarly(kept, lost, p, e);
    } else {
      DnsStateStepLate(kept, lost, p, e);
    }
  }

  /** Challenges are presented before any is torn down, and torn down in order. */
  predicate Touchable(kept: seq<Record>, lost: seq<Record>, n: nat, e: Event, plugin: string) {
    && (e.Provisioned? ==> n == 0 && lost == [] && e.teardown.challenge.Dns01?)
    && (e.TornDown? ==> n < |kept| && e.teardown.challenge.Dns01? && Lower(e.teardown.host) == kept[n].host
                        && plugin != "")
  }

  lemma RecordsGrow(rs: seq<Record>, r: Record, records: map<string, string>)
    requires forall h :: h in Hosts(rs) ==> h in records && records[h] == FinalId(rs, h)
    ensures var rs', records' := rs + [r], records[r.host := r.id];
            forall h :: h in Hosts(rs') ==> h in records' && records'[h] == FinalId(rs', h)
  {
    var rs' := rs + [r];
    assert Init(rs') == rs;
    forall h | h in Hosts(rs') && h != r.host ensures h in Hosts(rs) {
      var i :| 0 <= i < |rs'| && Hosts(rs')[i] == h;
      assert Hosts(rs)[i] == h;
    }
  }

  lemma DnsRaised(kept: seq<Record>, w0: Challengers, w: Challengers, e: Event, plugin: string)
    requires DnsInv(kept, [], w0, w, 0) && e.Provisioned? && e.teardown.challenge.Dns01?
    ensures DnsInv(kept + KeptBy(e), LostBy(e), w0, Touch(w, e, plugin), 0)
  {
    assert kept + [] == kept;
    assert Hosts(kept)[..0] == [] && Hosts(kept + KeptBy(e))[..0] == [];
    if !e.outcome.Refused? {
      var r := Record(Lower(e.teardown.host), e.outcome.id);
      RecordsGrow(kept, r, w.records);
      assert kept + KeptBy(e) + LostBy(e) == kept + [r];
    }
  }

  lemma DnsRazed(kept: seq<Record>, lost: seq<Record>, w0: Challengers, w: Challengers, n: nat, t: Teardown,
                 plugin: string)
    requires n < |kept| && DnsInv(kept, lost, w0, w, n)
    requires t.challenge.Dns01? && Lower(t.host) == kept[n].host && plugin != ""
    ensures DnsInv(kept, lost, w0, Raze(w, t, plugin), n + 1)
  {
    var rs, hs := kept + lost, Hosts(kept);
    var done := hs[..n + 1];
    assert Last(done) == kept[n].host && Init(done) == hs[..n] && done == hs[..n] + [kept[n].host];
    assert Hosts(rs)[n] == kept[n].host;
  }

  /** One event: only Provision and Cleanup touch the challenger. */
  lemma DnsWorldStep(kept: seq<Record>, lost: seq<Record>, w0: Challengers, w: Challengers, n: nat, e: Event,
                     plugin: string)
    requires n <= |kept| && DnsInv(kept, lost, w0, w, n) && Touchable(kept, lost, n, e, plugin)
    ensures DnsInv(kept + KeptBy(e), lost + LostBy(e), w0, Touch(w, e, plugin), if e.TornDown? then n + 1 else n)
  {
    assert kept + [] == kept && lost + [] == lost;
    if e.Provisioned? {
      DnsRaised(kept, w0, w, e, plugin);
    } else if e.TornDown? {
      DnsRazed(kept, lost, w0, w, n, e.teardown, plugin);
    }
  }

  lemma {:induction false} DnsStateHolds(c: Config, t: seq<Event>)
    requires Fresh(c) && IsRun(c, t) && c.proc.row.challenge.Dns01?
    ensures DnsState(Kept(t), Lost(t), Run(c, t).proc)
  {
    hide Answers, Enabled, After, Persist, Touch;
    if t != [] {
      DnsStateHolds(c, Init(t));
      DnsStateStep(Kept(Init(t)), Lost(Init(t)), Run(c, Init(t)).proc, Last(t));
    }
  }

  lemma {:induction false} DnsInvHolds(c: Config, t: seq<Event>)
    requires Fresh(c) && IsRun(c, t) && c.proc.row.challenge.Dns01?
    ensures Progress(Run(c, t).proc) <= |Kept(t)|
    ensures DnsInv(Kept(t), Lost(t), c.world, Run(c, t).world, Progress(Run(c, t).proc))
  {
    hide Answers, Enabled, After, Persist, Touch;
    DnsStateHolds(c, t);
    if t != [] {
      var b, e := Run(c, Init(t)), Last(t);
      DnsInvHolds(c, Init(t));
      DnsStateHolds(c, Init(t));
      DnsStateStep(Kept(Init(t)), Lost(Init(t)), b.proc, e);
      DnsWorldStep(Kept(Init(t)), Lost(Init(t)), c.world, b.world, Progress(b.proc), e, b.proc.env.plugin);
    }
  }

  lemma AtEnd(kept: seq<Record>, lost: seq<Record>, w0: Challengers, w: Challengers)
    requires |lost| <= 1 && DnsInv(kept, lost, w0, w, |kept|)
    ensures w.cleaned == w0.cleaned + Calls(kept + lost, Hosts(kept))
    ensures w.cleaned == w0.cleaned + Ids(kept) <==> Apart(kept, lost)
  {
    var hs := Hosts(kept);
    assert hs[..|hs|] == hs;
    CallsExact(kept, lost);
    assert w.cleaned[|w0.cleaned|..] == Calls(kept + lost, hs);
  }

  /** A dns-01 drive that has ended has passed to dns.cleanup the ids of exactly the
      records whose Provision returned nil, once each and in order, if and only if no
      two of them share a lower-cased host, and any that shares its host with a record
      whose propagation wait was cancelled has the same id. */
  lemma EachRecordCleanedOnceIff(c: Config, t: seq<Event>)
    requires Fresh(c) && IsRun(c, t) && c.proc.row.challenge.Dns01? && Run(c, t).proc.phase.Done?
    ensures Run(c, t).world.cleaned == c.world.cleaned + Ids(Kept(t)) <==> Apart(Kept(t), Lost(t))
    ensures Run(c, t).world.cleaned == c.world.cleaned + Calls(Kept(t) + Lost(t), Hosts(Kept(t)))
  {
    hide Answers, Enabled, After, Persist, Touch;
    DnsStateHolds(c, t);
    DnsInvHolds(c, t);
    AtEnd(Kept(t), Lost(t), c.world, Run(c, t).world);
  }

  /** With distinct lower-cased hosts that is so, whatever ids the plugin returned. */
  lemma DistinctHostsCleanedOnce(c: Config, t: seq<Event>)
    requires Fresh(c) && IsRun(c, t) && c.proc.row.challenge.Dns01? && Run(c, t).proc.phase.Done?
    requires Distinct(Hosts(Kept(t) + Lost(t)))
    ensures Run(c, t).world.cleaned == c.world.cleaned + Ids(Kept(t))
  {
    hide Answers, Enabled, After, Persist, Touch;
    DnsStateHolds(c, t);
    EachRecordCleanedOnceIff(c, t);
    HostsApart(Kept(t), Lost(t));
  }

  lemma HostsApart(kept: seq<Record>, lost: seq<Record>)
    requires |lost| <= 1 && Distinct(Hosts(kept + lost))
    ensures Apart(kept, lost)
  {
    var hs := Hosts(kept + lost);
    assert forall i :: 0 <= i < |kept| ==> hs[i] == kept[i].host;
    assert lost != [] ==> hs[|kept|] == lost[0].host;
  }
}
