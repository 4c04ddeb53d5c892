/** The reconciliation controller as it runs: tick and queuedJobsByArch of
    cmd/herold-runner-orchestrator/reconcile.go, and the in-place filter of
    listJobsWithLabels (forgejo.go), against a cloud and a Forgejo server whose calls
    may fail at any time. */
module Orchestrator {
  import opened Options
  import opened Clocks
  import opened Pool

  datatype Job = Job(id: nat, status: string)

  // -- The in-place filter --------------------------------------------------

  predicate IsWaiting(j: Job) {
    j.status == "queued" || j.status == "waiting"
  }

  function Waiting(jobs: seq<Job>): seq<Job> {
    if jobs == [] then []
    else
      var rest, j := Waiting(jobs[..|jobs| - 1]), jobs[|jobs| - 1];
      if IsWaiting(j) then rest + [j] else rest
  }

  /** The filter keeps each queued or waiting job as often as it was fetched, and no other. */
  lemma {:induction false} WaitingExactly(jobs: seq<Job>, j: Job)
    ensures multiset(Waiting(jobs))[j] == if j.status == "queued" || j.status == "waiting" then multiset(jobs)[j] else 0
  {
    if jobs != [] {
      WaitingExactly(jobs[..|jobs| - 1], j);
      assert jobs == jobs[..|jobs| - 1] + [jobs[|jobs| - 1]];
    }
  }

  /** out := jobs[:0], then append: the kept jobs are written over the front of the
      array that is still being read. */
  method FilterWaiting(jobs: array<Job>) returns (n: nat)
    modifies jobs
    ensures n <= jobs.Length && jobs[..n] == Waiting(old(jobs[..]))
  {
    n := 0;
    for i := 0 to jobs.Length
      invariant n <= i && jobs[i..] == old(jobs[i..])
      invariant jobs[..n] == Waiting(old(jobs[..i]))
    {
      var j := jobs[i];
      assert j == old(jobs[..])[i];
      assert old(jobs[..i + 1]) == old(jobs[..i]) + [j];
      if IsWaiting(j) {
        jobs[n] := j;
        n := n + 1;
      }
    }
    assert old(jobs[..jobs.Length]) == old(jobs[..]);
  }

  // -- The services ---------------------------------------------------------

  /** The runner VMs. The cloud never assigns an id twice, and refuses a name in use;
      a failed call may still have taken effect. For the record it keeps how often it
      was listed, whether the last listing succeeded, which VMs it was asked to delete
      since then, for which it reported success, and how many spawns it failed. */
  class Cloud {
    var vms: seq<VM>
    var nextId: nat
    ghost var listings: nat
    ghost var listed: bool
    ghost var asked: set<nat>
    ghost var deleted: set<nat>
    ghost var failures: nat

    ghost predicate Valid()
      reads this
    {
      Distinct(vms) && forall v :: v in vms ==> v.id < nextId
    }

    method List() returns (ok: bool, all: seq<VM>)
      modifies this`listings, this`listed, this`asked, this`deleted
      ensures ok ==> all == vms
      ensures listings == old(listings) + 1 && listed == ok && asked == {} && deleted == {}
    {
      ok, all := *, vms;
      listings := listings + 1;
      listed, asked, deleted := ok, {}, {};
    }

    method Delete(v: VM) returns (ok: bool, ghost applied: bool)
      requires Valid()
      modifies this`vms, this`asked, this`deleted
      ensures Valid() && (ok ==> applied)
      ensures vms == if applied then Without(old(vms), {v.id}) else old(vms)
      ensures asked == old(asked) + {v.id} && deleted == if ok then old(deleted) + {v.id} else old(deleted)
    {
      ok, applied := *, false;
      asked, deleted := asked + {v.id}, if ok then deleted + {v.id} else deleted;
      var takesEffect: bool := *;
      if ok || takesEffect {
        applied := true;
        WithoutDistinct(vms, {v.id});
        vms := Without(vms, {v.id});
      }
    }

    /** latestSnapshotID. */
    method FindSnapshot(arch: string) returns (ok: bool)
      modifies this`failures
      ensures failures == if ok then old(failures) else old(failures) + 1
    {
      ok := *;
      failures := if ok then failures else failures + 1;
    }

    /** spawnVM. */
    method Create(name: string, arch: string, now: int) returns (ok: bool, ghost created: seq<VM>)
      requires Valid()
      modifies this`vms, this`nextId, this`failures
      ensures Valid() && vms == old(vms) + created && nextId >= old(nextId)
      ensures created == [] || (|created| == 1 && created[0].arch == arch && old(nextId) <= created[0].id < nextId)
      ensures created != [] ==> created[0].name == name
      ensures ok ==> created != []
      ensures failures == if ok then old(failures) else old(failures) + 1
    {
      ok, created := false, [];
      var takesEffect: bool := *;
      if takesEffect && (forall v :: v in vms ==> v.name != name) {
        var skip: nat :| skip >= 0;
        var v := VM(nextId + skip, name, arch, now, false);
        created := [v];
        vms, nextId := vms + [v], nextId + skip + 1;
        ok := *;
      }
      failures := if ok then failures else failures + 1;
    }

    /** What happens to the pool between two ticks. */
    method Meanwhile()
      requires Valid()
      modifies this`vms
      ensures Valid() && Drifts(old(vms), vms)
    {
      var gone: set<nat>, off: set<nat> := *, *;
      ChangedDistinct(vms, gone, off);
      forall w | w in Changed(vms, gone, off) ensures w.id < nextId {
        ChangedFrom(vms, gone, off, w);
      }
      vms := Changed(vms, gone, off);
    }
  }

  /** Every VM of a changed pool was there before. */
  lemma {:induction false} ChangedFrom(vms: seq<VM>, gone: set<nat>, off: set<nat>, w: VM)
    requires w in Changed(vms, gone, off)
    ensures exists v :: v in vms && v.id == w.id && v.name == w.name
  {
    if vms[0].id !in gone && w == vms[0].(off := vms[0].id in off) {
      assert vms[0] in vms;
    } else {
      ChangedFrom(vms[1..], gone, off, w);
      var v :| v in vms[1..] && v.id == w.id && v.name == w.name;
      assert v in vms;
    }
  }

  lemma {:induction false} ChangedDistinct(vms: seq<VM>, gone: set<nat>, off: set<nat>)
    requires Distinct(vms)
    ensures Distinct(Changed(vms, gone, off))
  {
    if vms != [] {
      ChangedDistinct(vms[1..], gone, off);
      var rest := Changed(vms[1..], gone, off);
      forall j | 0 <= j < |rest| ensures rest[j].id != vms[0].id && rest[j].name != vms[0].name {
        ChangedFrom(vms[1..], gone, off, rest[j]);
      }
    }
  }

  /** The Forgejo server; for the record, what it last answered and was asked to do. */
  class Forgejo {
    ghost var jobs: map<string, Option<seq<Job>>>
    ghost var runs: Probe
    ghost var runners: Option<seq<Runner>>
    ghost var dropped: seq<nat>
    ghost var failures: nat

    method ListJobs(arch: string) returns (ok: bool, fetched: array<Job>)
      modifies this`jobs
      ensures fresh(fetched)
      ensures jobs == old(jobs)[arch := if ok then Some(fetched[..]) else None]
    {
      var reply: seq<Job>;
      ok, reply := *, *;
      fetched := new Job[|reply|](i requires 0 <= i < |reply| => reply[i]);
      jobs := jobs[arch := if ok then Some(fetched[..]) else None];
    }

    method ListActiveRuns() returns (r: Probe)
      modifies this`runs
      ensures r == runs
    {
      r := *;
      runs := r;
    }

    method ListRunners() returns (ok: bool, all: seq<Runner>)
      modifies this`runners, this`dropped
      ensures runners == (if ok then Some(all) else None) && dropped == []
    {
      ok, all := *, *;
      runners, dropped := if ok then Some(all) else None, [];
    }

    method DeleteRunner(id: nat) returns (ok: bool)
      modifies this`dropped
      ensures dropped == old(dropped) + [id]
    {
      ok := *;
      dropped := dropped + [id];
    }

    method RegistrationToken() returns (ok: bool)
      modifies this`failures
      ensures failures == if ok then old(failures) else old(failures) + 1
    {
      ok := *;
      failures := if ok then failures else failures + 1;
    }
  }

  // -- The controller -------------------------------------------------------

  /** What the queue probes come to: the counts, or nothing if one of them failed. */
  function QueueFrom(jobs: map<string, Option<seq<Job>>>): Queue {
    if "arm64" in jobs && jobs["arm64"].Some? && "amd64" in jobs && jobs["amd64"].Some? then
      Seen(map["arm64" := |Waiting(jobs["arm64"].value)|, "amd64" := |Waiting(jobs["amd64"].value)|])
    else Unseen
  }

  function RunnersOf(r: Option<seq<Runner>>): seq<Runner> {
    if r.Some? then r.value else []
  }

  function RunnerIds(rs: seq<Runner>): seq<nat> {
    seq(|rs|, i requires 0 <= i < |rs| => rs[i].id)
  }

  function LiveNames(lim: Limits, now: int, vms: seq<VM>): set<string> {
    set v | v in vms && !Expired(lim, now, v) :: v.name
  }

  /** How many VMs a grouping has for an architecture; none is the same as no entry. */
  function Grouped(groups: map<string, seq<VM>>, arch: string): nat {
    if arch in groups then |groups[arch]| else 0
  }

  /** The live VMs' names, without those that were deleted. */
  function LiveBut(lim: Limits, now: int, vms: seq<VM>, deleted: set<nat>): set<string> {
    set v | v in vms && !Expired(lim, now, v) && v.id !in deleted :: v.name
  }

  /** The clocks after some VMs were seen and some of them deleted. */
  predicate Clocked(now: int, idle0: map<nat, int>, idle: map<nat, int>, seen: set<nat>, deleted: set<nat>) {
    && idle.Keys == idle0.Keys + seen - deleted
    && (forall id :: id in idle ==> idle[id] == if id in idle0 then idle0[id] else now)
  }

  lemma ClockedOn(now: int, idle0: map<nat, int>, idle: map<nat, int>, seen: set<nat>, deleted: set<nat>, id: nat,
                  ok: bool)
    requires Clocked(now, idle0, idle, seen, deleted) && id !in seen && id !in deleted
    ensures Clocked(now, idle0, if ok then idle - {id} else if id in idle then idle else idle[id := now], seen + {id},
                    if ok then deleted + {id} else deleted)
  {
  }

  /** The idle reaper after the first i VMs: what it has seen and deleted, the clocks
      (idle0 to begin with, idle now), and the names it still takes for live. */
  predicate SeenSoFar(lim: Limits, now: int, vms: seq<VM>, i: nat, idle0: map<nat, int>, idle: map<nat, int>,
                      seen: set<nat>, live: set<string>, deleted: set<nat>, removed: set<nat>)
    requires i <= |vms|
  {
    && seen == LiveIds(lim, now, vms[..i])
    && deleted <= removed <= DueIds(lim, now, idle0, vms[..i])
    && Clocked(now, idle0, idle, seen, deleted)
    && live == LiveBut(lim, now, vms, deleted)
  }

  lemma SeenNothing(lim: Limits, now: int, vms: seq<VM>, idle: map<nat, int>)
    ensures SeenSoFar(lim, now, vms, 0, idle, idle, {}, LiveNames(lim, now, vms), {}, {})
  {
  }

  /** Distinct VMs come by once. */
  lemma NotYet(vms: seq<VM>, i: nat)
    requires Distinct(vms) && i < |vms|
    ensures forall v :: v in vms[..i] ==> v.id != vms[i].id
    ensures vms[..i + 1] == vms[..i] + [vms[i]]
  {
  }

  /** The name tells a VM that has not come by yet live; an expired one is passed over. */
  lemma LiveByName(lim: Limits, now: int, vms: seq<VM>, i: nat, idle0: map<nat, int>, idle: map<nat, int>,
                   seen: set<nat>, live: set<string>, deleted: set<nat>, removed: set<nat>)
    requires Distinct(vms) && i < |vms| && SeenSoFar(lim, now, vms, i, idle0, idle, seen, live, deleted, removed)
    ensures vms[i].name in live <==> !Expired(lim, now, vms[i])
    ensures vms[i].id !in deleted && vms[i].id !in seen
    ensures Due(lim, now, idle, vms[i]) <==> Due(lim, now, idle0, vms[i])
    ensures vms[i].name !in live ==> SeenSoFar(lim, now, vms, i + 1, idle0, idle, seen, live, deleted, removed)
  {
    NotYet(vms, i);
  }

  lemma SeesOne(lim: Limits, now: int, vms: seq<VM>, i: nat, idle0: map<nat, int>, idle: map<nat, int>,
                seen: set<nat>, live: set<string>, deleted: set<nat>, removed: set<nat>, ok: bool, applied: bool)
    requires Distinct(vms) && i < |vms| && SeenSoFar(lim, now, vms, i, idle0, idle, seen, live, deleted, removed)
    requires !Expired(lim, now, vms[i]) && (ok ==> applied) && (applied ==> Due(lim, now, idle, vms[i]))
    ensures var id := vms[i].id;
            SeenSoFar(lim, now, vms, i + 1, idle0,
                      if ok then idle - {id} else if id in idle then idle else idle[id := now],
                      seen + {id},
                      if ok then live - {vms[i].name} else live,
                      if ok then deleted + {id} else deleted,
                      if applied then removed + {id} else removed)
  {
    LiveByName(lim, now, vms, i, idle0, idle, seen, live, deleted, removed);
    hide LiveBut, Expired, Due, LiveIds, DueIds, Distinct, Clocked;
    ClockedOn(now, idle0, idle, seen, deleted, vms[i].id, ok);
    LiveNext(lim, now, vms, i);
    DueNext(lim, now, idle0, vms, i);
    LiveButOne(lim, now, vms, deleted, vms[i]);
  }

  lemma LiveNext(lim: Limits, now: int, vms: seq<VM>, i: nat)
    requires i < |vms|
    ensures LiveIds(lim, now, vms[..i + 1]) ==
              LiveIds(lim, now, vms[..i]) + if Expired(lim, now, vms[i]) then {} else {vms[i].id}
  {
    assert vms[..i + 1] == vms[..i] + [vms[i]];
  }

  lemma NoneDue(lim: Limits, now: int, idle: map<nat, int>)
    ensures DueIds(lim, now, idle, []) == {}
  {
  }

  lemma DueNext(lim: Limits, now: int, idle: map<nat, int>, vms: seq<VM>, i: nat)
    requires i < |vms|
    ensures DueIds(lim, now, idle, vms[..i + 1]) ==
              DueIds(lim, now, idle, vms[..i]) + if Due(lim, now, idle, vms[i]) then {vms[i].id} else {}
  {
    assert vms[..i + 1] == vms[..i] + [vms[i]];
  }

  lemma LiveButOne(lim: Limits, now: int, vms: seq<VM>, deleted: set<nat>, v: VM)
    requires Distinct(vms) && v in vms
    ensures LiveBut(lim, now, vms, deleted + {v.id}) == LiveBut(lim, now, vms, deleted) - {v.name}
  {
  }

  lemma SeenAll(lim: Limits, now: int, vms: seq<VM>, idle0: map<nat, int>, idle: map<nat, int>,
                seen: set<nat>, live: set<string>, deleted: set<nat>, removed: set<nat>)
    requires SeenSoFar(lim, now, vms, |vms|, idle0, idle, seen, live, deleted, removed)
    ensures deleted <= removed <= DueIds(lim, now, idle0, vms) && live == LiveBut(lim, now, vms, deleted)
    ensures IdleClocks(lim, now, vms, idle0, deleted).Keys == idle.Keys * seen
    ensures forall id :: id in idle.Keys * seen ==> IdleClocks(lim, now, vms, idle0, deleted)[id] == idle[id]
  {
    assert vms[..|vms|] == vms;
  }

  lemma SameClocks(a: map<nat, int>, b: map<nat, int>)
    requires a.Keys == b.Keys && forall id :: id in a ==> a[id] == b[id]
    ensures a == b
  {
  }

  function Deficit(lim: Limits, queued: map<string, nat>, live: nat, arch: string): nat {
    Max(0, Min((if arch in queued then queued[arch] else 0) - live, Cap(lim, arch) - live))
  }

  lemma {:induction false} CountUniform(vms: seq<VM>, of: string, arch: string)
    requires forall v :: v in vms ==> v.arch == of
    ensures Count(vms, arch) == if arch == of then |vms| else 0
  {
    if vms != [] {
      CountUniform(vms[1..], of, arch);
    }
  }

  lemma CountNext(vms: seq<VM>, i: nat, arch: string)
    requires i < |vms|
    ensures Count(vms[..i + 1], arch) == Count(vms[..i], arch) + if vms[i].arch == arch then 1 else 0
  {
    assert vms[..i + 1] == vms[..i] + [vms[i]];
    CountAppend(vms[..i], [vms[i]], arch);
    assert [vms[i]][1..] == [];
  }

  lemma GhostsNext(rs: seq<Runner>, i: nat, live: set<string>)
    requires i < |rs|
    ensures RunnerIds(Ghosts(rs[..i + 1], live)) ==
              RunnerIds(Ghosts(rs[..i], live))
              + if RUNNER_PREFIX <= rs[i].name && rs[i].name !in live then [rs[i].id] else []
  {
    assert rs[..i + 1][..i] == rs[..i];
  }

  lemma NoGhosts(live: set<string>)
    ensures RunnerIds(Ghosts([], live)) == []
  {
  }

  /** One VM more: it is expired, or it is live. */
  lemma ExpiredNext(lim: Limits, now: int, vms: seq<VM>, i: nat)
    requires i < |vms|
    ensures ExpiredIds(lim, now, vms[..i + 1]) ==
              ExpiredIds(lim, now, vms[..i]) + if Expired(lim, now, vms[i]) then {vms[i].id} else {}
    ensures LiveNames(lim, now, vms[..i + 1]) ==
              LiveNames(lim, now, vms[..i]) + if Expired(lim, now, vms[i]) then {} else {vms[i].name}
  {
    assert vms[..i + 1] == vms[..i] + [vms[i]];
  }

  lemma NoneExpired(lim: Limits, now: int)
    ensures ExpiredIds(lim, now, []) == {} && LiveNames(lim, now, []) == {}
  {
  }

  /** A tick that got no listing. */
  function Idle(vms: seq<VM>, now: int, queue: Queue, id: nat): Pool.Tick {
    Pool.Tick(vms, false, now, queue, ProbeFailed, {}, {}, {}, [], [], [], true, vms, id, id)
  }

  lemma IdleReconciled(lim: Limits, idle: map<nat, int>, t: Pool.Tick)
    requires Distinct(t.before) && (forall v :: v in t.before ==> v.id < t.firstId)
    requires t == Idle(t.before, t.now, t.queue, t.firstId) && Counts(t.queue).Keys <= {"arm64", "amd64"}
    ensures Reconciled(lim, idle, idle, t)
  {
    WithoutNone(t.before);
  }

  lemma DueNotExpired(lim: Limits, now: int, idle: map<nat, int>, vms: seq<VM>)
    requires Distinct(vms)
    ensures DueIds(lim, now, idle, vms) !! ExpiredIds(lim, now, vms)
  {
  }

  /** What both reapers together come to. */
  predicate Reaped(lim: Limits, now: int, vms: seq<VM>, work: bool, idle: map<nat, int>, idle': map<nat, int>,
                   asked: set<nat>, deleted: set<nat>, removed: set<nat>, live: set<string>) {
    var due := if work then {} else DueIds(lim, now, idle, vms);
    && idle' == (if work then map[] else IdleClocks(lim, now, vms, idle, deleted))
    && asked == ExpiredIds(lim, now, vms) + due
    && deleted <= removed <= asked
    && live == LiveBut(lim, now, vms, due * deleted)
  }

  lemma ReapersAddUp(lim: Limits, now: int, vms: seq<VM>, work: bool, idle: map<nat, int>, idle': map<nat, int>,
                     deleted: set<nat>, removed: set<nat>, deleted': set<nat>, removed': set<nat>, live: set<string>)
    requires Distinct(vms) && deleted <= removed <= ExpiredIds(lim, now, vms) && deleted' <= removed'
    requires work ==> idle' == map[] && removed' == {} && live == LiveNames(lim, now, vms)
    requires !work ==>
               && removed' <= DueIds(lim, now, idle, vms)
               && idle' == IdleClocks(lim, now, vms, idle, deleted')
               && live == LiveBut(lim, now, vms, deleted')
    ensures Reaped(lim, now, vms, work, idle, idle',
                   ExpiredIds(lim, now, vms) + if work then {} else DueIds(lim, now, idle, vms),
                   deleted + deleted', removed + removed', live)
  {
    DueNotExpired(lim, now, idle, vms);
    var due := DueIds(lim, now, idle, vms);
    assert !work ==> due * (deleted + deleted') == due * deleted' == deleted';
  }

  /** The parts of a tick add up. */
  lemma Reconciles(lim: Limits, idle: map<nat, int>, idle': map<nat, int>, t: Pool.Tick,
                   groups: map<string, seq<VM>>, live: set<string>)
    requires t.listed && Distinct(t.before) && (forall v :: v in t.before ==> v.id < t.firstId)
    requires Counts(t.queue).Keys <= {"arm64", "amd64"} && t.firstId <= t.lastId
    requires Reaped(lim, t.now, t.before, HasWork(t), idle, idle', t.asked, t.deleted, t.removed, live)
    requires t.dropped == Ghosts(t.runners, live)
    requires t.after == Without(t.before, t.removed) + t.created
    requires forall arch :: Grouped(groups, arch) == Count(t.before, arch)
    requires forall v :: v in t.created ==> t.firstId <= v.id < t.lastId && "herold-runner-" <= v.name
    requires forall arch :: Count(t.created, arch) <= Deficit(lim, Counts(t.queue), Grouped(groups, arch), arch)
    requires t.spawned ==>
               forall arch :: Count(t.created, arch) == Deficit(lim, Counts(t.queue), Grouped(groups, arch), arch)
    ensures Reconciled(lim, idle, idle', t)
  {
    assert live == SparedNames(lim, idle, t);
    assert forall arch :: SpawnBound(lim, t, arch) == Deficit(lim, Counts(t.queue), Grouped(groups, arch), arch);
  }

  class Controller {
    const lim: Limits
    const cloud: Cloud
    const forgejo: Forgejo
    const clock: Clock
    var idleSince: map<nat, int>

    constructor (lim: Limits, cloud: Cloud, forgejo: Forgejo, clock: Clock)
      ensures this.lim == lim && this.cloud == cloud && this.forgejo == forgejo && this.clock == clock
      ensures idleSince == map[]
    {
      this.lim, this.cloud, this.forgejo, this.clock := lim, cloud, forgejo, clock;
      idleSince := map[];
    }

    ghost function Failures(): nat
      reads cloud, forgejo
    {
      cloud.failures + forgejo.failures
    }

    /** queuedJobsByArch: how many of the jobs fetched for each architecture are queued
        or waiting; one failure loses all. */
    method QueuedJobsByArch() returns (ok: bool, out: map<string, nat>)
      modifies forgejo`jobs
      ensures ok <==> QueueFrom(forgejo.jobs).Seen?
      ensures ok ==> QueueFrom(forgejo.jobs) == Seen(out)
      ensures ok ==> "arm64" in forgejo.jobs && forgejo.jobs["arm64"].Some? && "amd64" in forgejo.jobs
                     && forgejo.jobs["amd64"].Some?
                     && out == map["arm64" := |Waiting(forgejo.jobs["arm64"].value)|,
                                   "amd64" := |Waiting(forgejo.jobs["amd64"].value)|]
    {
      out := map[];
      var jobs;
      ok, jobs := forgejo.ListJobs("arm64");
      if !ok {
        return;
      }
      var n := FilterWaiting(jobs);
      assert |jobs[..n]| == n;
      out := out["arm64" := n];
      ok, jobs := forgejo.ListJobs("amd64");
      if !ok {
        return;
      }
      n := FilterWaiting(jobs);
      assert |jobs[..n]| == n;
      out := out["amd64" := n];
    }

    /** Deletion of every off or overaged VM is requested; the rest are live. */
    method ReapExpired(vms: seq<VM>, now: int)
      returns (live: set<string>, ghost deleted: set<nat>, ghost removed: set<nat>)
      requires cloud.Valid()
      modifies cloud`vms, cloud`asked, cloud`deleted
      ensures cloud.Valid() && cloud.vms == Without(old(cloud.vms), removed)
      ensures live == LiveNames(lim, now, vms)
      ensures cloud.asked == old(cloud.asked) + ExpiredIds(lim, now, vms)
              && cloud.deleted == old(cloud.deleted) + deleted
      ensures deleted <= removed <= ExpiredIds(lim, now, vms)
    {
      hide ExpiredIds, LiveNames;
      live, deleted, removed := {}, {}, {};
      WithoutNone(cloud.vms);
      NoneExpired(lim, now);
      for i := 0 to |vms|
        invariant cloud.Valid() && cloud.vms == Without(old(cloud.vms), removed)
        invariant live == LiveNames(lim, now, vms[..i])
        invariant cloud.asked == old(cloud.asked) + ExpiredIds(lim, now, vms[..i])
                  && cloud.deleted == old(cloud.deleted) + deleted
        invariant deleted <= removed <= ExpiredIds(lim, now, vms[..i])
      {
        var v := vms[i];
        ExpiredNext(lim, now, vms, i);
        if v.off || now - v.created > lim.maxLifetime {
          var ok, applied := cloud.Delete(v);
          WithoutTwice(old(cloud.vms), removed, {v.id});
          removed := if applied then removed + {v.id} else removed;
          deleted := if ok then deleted + {v.id} else deleted;
        } else {
          live := live + {v.name};
        }
      }
      assert vms[..|vms|] == vms;
    }

    /** Whether there is work: something queued, something running, or no telling. */
    method FindWork(queued: map<string, nat>) returns (hasWork: bool)
      modifies forgejo`runs
      ensures hasWork <==> SomeQueued(queued) || forgejo.runs != Running(0)
    {
      var total: nat, todo := 0, queued.Keys;
      while todo != {}
        invariant todo <= queued.Keys
        invariant total > 0 <==> exists arch :: arch in queued.Keys - todo && queued[arch] > 0
      {
        var arch :| arch in todo;
        todo := todo - {arch};
        total := total + queued[arch];
      }
      hasWork := total > 0;
      if !hasWork {
        var runs := forgejo.ListActiveRuns();
        if runs.ProbeFailed? {
          hasWork := true;
        } else if runs.runs > 0 {
          hasWork := true;
        }
      }
    }

    /** One live VM of a tick without work: start its clock, or have it deleted if due. */
    method ReapIfIdle(v: VM, now: int) returns (ok: bool, ghost applied: bool)
      requires cloud.Valid() && !Expired(lim, now, v)
      modifies this`idleSince, cloud`vms, cloud`asked, cloud`deleted
      ensures cloud.Valid() && (ok ==> applied) && (applied ==> Due(lim, now, old(idleSince), v))
      ensures cloud.vms == if applied then Without(old(cloud.vms), {v.id}) else old(cloud.vms)
      ensures cloud.asked == old(cloud.asked) + if Due(lim, now, old(idleSince), v) then {v.id} else {}
      ensures cloud.deleted == old(cloud.deleted) + if ok then {v.id} else {}
      ensures idleSince == if ok then old(idleSince) - {v.id}
                           else if v.id in old(idleSince) then old(idleSince) else old(idleSince)[v.id := now]
    {
      ok, applied := false, false;
      if v.id !in idleSince {
        idleSince := idleSince[v.id := now];
        return;
      }
      var idleFor := now - idleSince[v.id];
      if idleFor <= lim.maxIdle {
        return;
      }
      ok, applied := cloud.Delete(v);
      if ok {
        idleSince := idleSince - {v.id};
      }
    }

    /** Forget the clocks of VMs that were not seen. */
    method ForgetUnseen(seen: set<nat>)
      modifies this`idleSince
      ensures idleSince.Keys == old(idleSince).Keys * seen
      ensures forall id :: id in idleSince ==> idleSince[id] == old(idleSince)[id]
    {
      var todo := idleSince.Keys;
      while |todo| > 0
        invariant todo <= idleSince.Keys <= old(idleSince).Keys
        invariant forall id :: id in idleSince ==> idleSince[id] == old(idleSince)[id]
        invariant forall id :: id in idleSince ==> id in todo || id in seen
        invariant forall id :: id in old(idleSince) && id in seen ==> id in idleSince
      {
        var id :| id in todo;
        todo := todo - {id};
        if id !in seen {
          idleSince := idleSince - {id};
        }
      }
    }

    /** The idle reaper of a tick without work. */
    method ReapIdle(vms: seq<VM>, now: int, live0: set<string>)
      returns (live: set<string>, ghost deleted: set<nat>, ghost removed: set<nat>)
      requires cloud.Valid() && Distinct(vms) && live0 == LiveNames(lim, now, vms)
      modifies this`idleSince, cloud`vms, cloud`asked, cloud`deleted
      ensures cloud.Valid() && cloud.vms == Without(old(cloud.vms), removed)
      ensures cloud.asked == old(cloud.asked) + DueIds(lim, now, old(idleSince), vms)
      ensures cloud.deleted == old(cloud.deleted) + deleted
      ensures deleted <= removed <= DueIds(lim, now, old(idleSince), vms)
      ensures idleSince == IdleClocks(lim, now, vms, old(idleSince), deleted)
      ensures live == LiveBut(lim, now, vms, deleted)
    {
      hide SeenSoFar, IdleClocks, LiveBut, DueIds, LiveNames, LiveIds;
      live, deleted, removed := live0, {}, {};
      NoneDue(lim, now, idleSince);
      WithoutNone(cloud.vms);
      var seen: set<nat> := {};
      SeenNothing(lim, now, vms, idleSince);
      for i := 0 to |vms|
        invariant cloud.Valid() && cloud.vms == Without(old(cloud.vms), removed)
        invariant SeenSoFar(lim, now, vms, i, old(idleSince), idleSince, seen, live, deleted, removed)
        invariant cloud.asked == old(cloud.asked) + DueIds(lim, now, old(idleSince), vms[..i])
        invariant cloud.deleted == old(cloud.deleted) + deleted
      {
        var v := vms[i];
        DueNext(lim, now, old(idleSince), vms, i);
        LiveByName(lim, now, vms, i, old(idleSince), idleSince, seen, live, deleted, removed);
        if v.name in live {
          ghost var idle := idleSince;
          var ok, applied := ReapIfIdle(v, now);
          WithoutTwice(old(cloud.vms), removed, {v.id});
          SeesOne(lim, now, vms, i, old(idleSince), idle, seen, live, deleted, removed, ok, applied);
          seen := seen + {v.id};
          removed := if applied then removed + {v.id} else removed;
          deleted := if ok then deleted + {v.id} else deleted;
          if ok {
            live := live - {v.name};
          }
        }
      }
      assert vms[..|vms|] == vms;
      SeenAll(lim, now, vms, old(idleSince), idleSince, seen, live, deleted, removed);
      ForgetUnseen(seen);
      SameClocks(idleSince, IdleClocks(lim, now, vms, old(idleSince), deleted));
    }

    /** Work stops every clock; without work the idle reaper runs. */
    method KeepClocks(vms: seq<VM>, now: int, live0: set<string>, hasWork: bool)
      returns (live: set<string>, ghost deleted: set<nat>, ghost removed: set<nat>)
      requires cloud.Valid() && Distinct(vms) && live0 == LiveNames(lim, now, vms)
      modifies this`idleSince, cloud`vms, cloud`asked, cloud`deleted
      ensures cloud.Valid() && cloud.vms == Without(old(cloud.vms), removed) && deleted <= removed
      ensures cloud.asked == old(cloud.asked) + if hasWork then {} else DueIds(lim, now, old(idleSince), vms)
      ensures cloud.deleted == old(cloud.deleted) + deleted
      ensures hasWork ==> idleSince == map[] && removed == {} && live == live0
      ensures !hasWork ==>
                && removed <= DueIds(lim, now, old(idleSince), vms)
                && idleSince == IdleClocks(lim, now, vms, old(idleSince), deleted)
                && live == LiveBut(lim, now, vms, deleted)
    {
      hide IdleClocks, LiveBut, LiveNames, DueIds, Distinct;
      live, deleted, removed := live0, {}, {};
      if hasWork {
        WithoutNone(cloud.vms);
        if |idleSince| > 0 {
          idleSince := map[];
        }
      } else {
        live, deleted, removed := ReapIdle(vms, now, live0);
      }
    }

    method GroupByArch(vms: seq<VM>) returns (groups: map<string, seq<VM>>)
      ensures forall arch :: Grouped(groups, arch) == Count(vms, arch)
    {
      groups := map[];
      for i := 0 to |vms|
        invariant forall arch :: Grouped(groups, arch) == Count(vms[..i], arch)
      {
        var v := vms[i];
        ghost var before := groups;
        groups := groups[v.arch := (if v.arch in groups then groups[v.arch] else []) + [v]];
        forall arch ensures Grouped(groups, arch) == Count(vms[..i + 1], arch) {
          CountNext(vms, i, arch);
          assert Grouped(before, arch) == Count(vms[..i], arch);
        }
      }
      assert vms[..|vms|] == vms;
    }

    /** Deregister the pool's runners whose VM is not live. */
    method DropGhosts(live: set<string>)
      modifies forgejo`runners, forgejo`dropped
      ensures forgejo.dropped == RunnerIds(Ghosts(RunnersOf(forgejo.runners), live))
    {
      hide Ghosts, RunnerIds;
      NoGhosts(live);
      var ok, rs := forgejo.ListRunners();
      if !ok {
        return;
      }
      for i := 0 to |rs|
        invariant forgejo.runners == Some(rs) && forgejo.dropped == RunnerIds(Ghosts(rs[..i], live))
      {
        var r := rs[i];
        GhostsNext(rs, i, live);
        if !(RUNNER_PREFIX <= r.name) || r.name in live {
          continue;
        }
        var _ := forgejo.DeleteRunner(r.id);
      }
      assert rs[..|rs|] == rs;
    }

    /** One VM, unless there is no snapshot, no registration token, or no server. */
    method SpawnOne(arch: string) returns (ok: bool, ghost created: seq<VM>)
      requires cloud.Valid()
      modifies cloud`vms, cloud`nextId, cloud`failures, forgejo`failures
      ensures cloud.Valid() && cloud.vms == old(cloud.vms) + created && cloud.nextId >= old(cloud.nextId)
      ensures created == []
              || (|created| == 1 && created[0].arch == arch && old(cloud.nextId) <= created[0].id < cloud.nextId
                  && "herold-runner-" <= created[0].name)
      ensures ok ==> created != [] && Failures() == old(Failures())
      ensures !ok ==> Failures() > old(Failures())
    {
      created := [];
      ok := cloud.FindSnapshot(arch);
      if !ok {
        return;
      }
      ok := forgejo.RegistrationToken();
      if !ok {
        return;
      }
      var stamp: string := *;
      ok, created := cloud.Create(RUNNER_PREFIX + arch + "-" + stamp, arch, clock.now);
    }

    /** Cover the deficit, up to the cap; the first failure ends it. */
    method SpawnFor(arch: string, queued: nat, live: nat) returns (ghost created: seq<VM>)
      requires cloud.Valid()
      modifies cloud`vms, cloud`nextId, cloud`failures, forgejo`failures
      ensures cloud.Valid() && cloud.vms == old(cloud.vms) + created && cloud.nextId >= old(cloud.nextId)
      ensures forall v :: v in created ==>
                    v.arch == arch && old(cloud.nextId) <= v.id < cloud.nextId && "herold-runner-" <= v.name
      ensures |created| <= Max(0, Min(queued - live, Cap(lim, arch) - live)) && Failures() >= old(Failures())
      ensures Failures() == old(Failures()) ==> |created| == Max(0, Min(queued - live, Cap(lim, arch) - live))
    {
      created := [];
      var max := Cap(lim, arch);
      var need := queued - live;
      if need <= 0 {
        return;
      }
      var room := max - live;
      var spawn := if need > room then room else need;
      if spawn <= 0 {
        return;
      }
      for i := 0 to spawn
        invariant cloud.Valid() && cloud.vms == old(cloud.vms) + created && cloud.nextId >= old(cloud.nextId)
        invariant |created| == i && Failures() == old(Failures())
        invariant forall v :: v in created ==>
                    v.arch == arch && old(cloud.nextId) <= v.id < cloud.nextId && "herold-runner-" <= v.name
      {
        var ok, one := SpawnOne(arch);
        created := created + one;
        if !ok {
          break;
        }
      }
    }

    method SpawnAll(queued: map<string, nat>, groups: map<string, seq<VM>>) returns (ghost created: seq<VM>)
      requires cloud.Valid() && queued.Keys <= {"arm64", "amd64"}
      modifies cloud`vms, cloud`nextId, cloud`failures, forgejo`failures
      ensures cloud.Valid() && cloud.vms == old(cloud.vms) + created && cloud.nextId >= old(cloud.nextId)
      ensures forall v :: v in created ==> old(cloud.nextId) <= v.id < cloud.nextId && "herold-runner-" <= v.name
      ensures forall arch :: Count(created, arch) <= Deficit(lim, queued, Grouped(groups, arch), arch)
      ensures Failures() >= old(Failures())
      ensures Failures() == old(Failures()) ==>
                forall arch :: Count(created, arch) == Deficit(lim, queued, Grouped(groups, arch), arch)
    {
      var arm := SpawnFor("arm64", if "arm64" in queued then queued["arm64"] else 0, Grouped(groups, "arm64"));
      var amd := SpawnFor("amd64", if "amd64" in queued then queued["amd64"] else 0, Grouped(groups, "amd64"));
      created := arm + amd;
      forall arch
        ensures Count(created, arch) <= Deficit(lim, queued, Grouped(groups, arch), arch)
        ensures Failures() == old(Failures()) ==>
                  Count(created, arch) == Deficit(lim, queued, Grouped(groups, arch), arch)
      {
        CountAppend(arm, amd, arch);
        CountUniform(arm, "arm64", arch);
        CountUniform(amd, "amd64", arch);
      }
    }

    /** The expired VMs, then the idle ones. */
    method Reap(vms: seq<VM>, now: int, queued: map<string, nat>) returns (live: set<string>, ghost removed: set<nat>)
      requires cloud.Valid() && Distinct(vms) && cloud.asked == {} == cloud.deleted
      modifies this`idleSince, cloud`vms, cloud`asked, cloud`deleted, forgejo`runs
      ensures cloud.Valid() && cloud.vms == Without(old(cloud.vms), removed)
      ensures var work := SomeQueued(queued) || forgejo.runs != Running(0);
              Reaped(lim, now, vms, work, old(idleSince), idleSince, cloud.asked, cloud.deleted, removed, live)
    {
      hide Reaped, IdleClocks, LiveBut, LiveNames, DueIds, ExpiredIds, Distinct;
      ghost var deleted, deleted', removed';
      live, deleted, removed := ReapExpired(vms, now);
      var hasWork := FindWork(queued);
      live, deleted', removed' := KeepClocks(vms, now, live, hasWork);
      WithoutTwice(old(cloud.vms), removed, removed');
      ReapersAddUp(lim, now, vms, hasWork, old(idleSince), idleSince, deleted, removed, deleted', removed', live);
      removed := removed + removed';
      assert cloud.deleted == deleted + deleted';
      assert cloud.asked == ExpiredIds(lim, now, vms) + if hasWork then {} else DueIds(lim, now, old(idleSince), vms);
    }

    /** The queue counts; none when the probe failed. */
    method ProbeQueue() returns (queued: map<string, nat>)
      modifies forgejo`jobs
      ensures queued == Counts(QueueFrom(forgejo.jobs)) && queued.Keys <= {"arm64", "amd64"}
    {
      var probed;
      probed, queued := QueuedJobsByArch();
      if !probed {
        queued := map[];
      }
    }

    /** The pass once the VMs are listed. */
    method Pass(vms: seq<VM>, queued: map<string, nat>, ghost queue: Queue) returns (ghost t: Pool.Tick)
      requires cloud.Valid() && vms == cloud.vms && cloud.asked == {} == cloud.deleted
      requires queued == Counts(queue) && queued.Keys <= {"arm64", "amd64"}
      modifies this`idleSince, cloud`vms, cloud`asked, cloud`deleted, cloud`nextId, cloud`failures, clock
      modifies forgejo`runs, forgejo`runners, forgejo`dropped, forgejo`failures
      ensures cloud.Valid() && Reconciled(lim, old(idleSince), idleSince, t)
      ensures t.before == vms && t.after == cloud.vms && t.listed && t.queue == queue
      ensures t.firstId == old(cloud.nextId) && t.lastId == cloud.nextId
      ensures old(clock.now) <= t.now == clock.now
      ensures t.active == forgejo.runs && t.runners == RunnersOf(forgejo.runners)
              && forgejo.dropped == RunnerIds(t.dropped)
      ensures t.asked == cloud.asked && t.deleted == cloud.deleted && (!t.spawned ==> Failures() > old(Failures()))
    {
      hide Reconciled, Reaped, Grouped, Ghosts, Distinct, RunnersOf, RunnerIds, Deficit, Count;
      var groups := GroupByArch(vms);
      var now := clock.Now();
      var live, removed := Reap(vms, now, queued);
      DropGhosts(live);
      var created := SpawnAll(queued, groups);
      ghost var runners := RunnersOf(forgejo.runners);
      t := Pool.Tick(vms, true, now, queue, forgejo.runs, cloud.asked, cloud.deleted, removed,
                     runners, Ghosts(runners, live), created, Failures() == old(Failures()),
                     cloud.vms, old(cloud.nextId), cloud.nextId);
      Reconciles(lim, old(idleSince), idleSince, t, groups, live);
    }

    /** tick: one reconciliation pass. What it records is what the services were asked
        and answered. */
    method Tick() returns (ghost t: Pool.Tick)
      requires cloud.Valid()
      modifies this`idleSince, cloud, clock, forgejo
      ensures cloud.Valid() && Reconciled(lim, old(idleSince), idleSince, t)
      ensures t.before == old(cloud.vms) && t.after == cloud.vms
      ensures t.firstId == old(cloud.nextId) && t.lastId == cloud.nextId
      ensures old(clock.now) <= t.now == clock.now
      ensures cloud.listings == old(cloud.listings) + 1 && t.listed == cloud.listed
              && t.queue == QueueFrom(forgejo.jobs)
      ensures t.listed ==> t.active == forgejo.runs && t.runners == RunnersOf(forgejo.runners)
      ensures t.listed ==> forgejo.dropped == RunnerIds(t.dropped)
      ensures t.asked == cloud.asked && t.deleted == cloud.deleted && (!t.spawned ==> Failures() > old(Failures()))
    {
      hide Reconciled, QueueFrom, RunnersOf, RunnerIds;
      var queued := ProbeQueue();
      var ok, vms := cloud.List();
      if ok {
        t := Pass(vms, queued, QueueFrom(forgejo.jobs));
      } else {
        t := Idle(cloud.vms, clock.now, QueueFrom(forgejo.jobs), cloud.nextId);
        IdleReconciled(lim, idleSince, t);
      }
    }

    /** run, for some number of ticks: what the controller did is a history, so all that
        is proved of histories holds of it. */
    method Run(n: nat) returns (ghost ticks: seq<Pool.Tick>, ghost idles: seq<map<nat, int>>)
      requires cloud.Valid() && idleSince == map[]
      modifies this`idleSince, cloud, clock, forgejo
      ensures |ticks| == n && IsHistory(lim, ticks, idles)
    {
      hide Reconciled, Drifts;
      ticks, idles := [], [map[]];
      for i := 0 to n
        invariant cloud.Valid() && |ticks| == i && IsHistory(lim, ticks, idles) && idles[i] == idleSince
        invariant i > 0 ==> ticks[i - 1].now <= clock.now && ticks[i - 1].lastId == cloud.nextId
        invariant i > 0 ==> ticks[i - 1].after == cloud.vms
      {
        cloud.Meanwhile();
        var t := Tick();
        ticks, idles := ticks + [t], idles + [idleSince];
      }
    }
  }
}
