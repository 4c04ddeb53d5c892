/** What one reconciliation tick of cmd/herold-runner-orchestrator/reconcile.go does,
    and what holds over every run of ticks. Times are in seconds. */
module Pool {

  datatype VM = VM(id: nat, name: string, arch: string, created: int, off: bool)
  datatype Runner = Runner(id: nat, name: string)
  datatype Limits = Limits(maxArm: int, maxAmd: int, maxLifetime: int, maxIdle: int)
  datatype Probe = ProbeFailed | Running(runs: nat)
  datatype Queue = Unseen | Seen(counts: map<string, nat>)

  const RUNNER_PREFIX: string := "herold-runner-"

  // -- The pool -------------------------------------------------------------

  function Count(vms: seq<VM>, arch: string): nat {
    if vms == [] then 0 else (if vms[0].arch == arch then 1 else 0) + Count(vms[1..], arch)
  }

  function Ids(vms: seq<VM>): set<nat> {
    set v | v in vms :: v.id
  }

  /** The pool without some of its VMs. */
  function Without(vms: seq<VM>, ids: set<nat>): (r: seq<VM>)
    ensures forall v :: v in r <==> v in vms && v.id !in ids
  {
    if vms == [] then []
    else if vms[0].id in ids then Without(vms[1..], ids)
    else [vms[0]] + Without(vms[1..], ids)
  }

  predicate Distinct(vms: seq<VM>) {
    forall i, j :: 0 <= i < j < |vms| ==> vms[i].id != vms[j].id && vms[i].name != vms[j].name
  }

  function Cap(lim: Limits, arch: string): int {
    match arch
    case "arm64" => lim.maxArm
    case "amd64" => lim.maxAmd
    case _ => 0
  }

  lemma {:induction false} CountWithout(vms: seq<VM>, ids: set<nat>, arch: string)
    ensures Count(Without(vms, ids), arch) <= Count(vms, arch)
  {
    if vms != [] {
      CountWithout(vms[1..], ids, arch);
      if vms[0].id !in ids {
        assert Without(vms, ids)[1..] == Without(vms[1..], ids);
      }
    }
  }

  lemma {:induction false} CountAppend(vms: seq<VM>, more: seq<VM>, arch: string)
    ensures Count(vms + more, arch) == Count(vms, arch) + Count(more, arch)
  {
    if vms == [] {
      assert vms + more == more;
    } else {
      assert (vms + more)[1..] == vms[1..] + more;
      CountAppend(vms[1..], more, arch);
    }
  }

  lemma {:induction false} WithoutTwice(vms: seq<VM>, a: set<nat>, b: set<nat>)
    ensures Without(Without(vms, a), b) == Without(vms, a + b)
  {
    if vms != [] {
      WithoutTwice(vms[1..], a, b);
      if vms[0].id !in a {
        assert Without(vms, a)[1..] == Without(vms[1..], a);
      }
    }
  }

  lemma {:induction false} WithoutNone(vms: seq<VM>)
    ensures Without(vms, {}) == vms
  {
    if vms != [] {
      WithoutNone(vms[1..]);
    }
  }

  lemma {:induction false} WithoutDistinct(vms: seq<VM>, ids: set<nat>)
    requires Distinct(vms)
    ensures Distinct(Without(vms, ids))
  {
    if vms != [] {
      WithoutDistinct(vms[1..], ids);
      var rest := Without(vms[1..], ids);
      forall j | 0 <= j < |rest| ensures rest[j].id != vms[0].id && rest[j].name != vms[0].name {
        assert rest[j] in vms[1..];
      }
    }
  }

  // -- One tick -------------------------------------------------------------

  /** What a tick was told, what its calls came to, and what it did.
      queue is Unseen when the queue probe failed; asked holds the VMs whose deletion
      was requested, deleted those for which that returned without error, removed
      those for which it took effect; dropped holds the runners it deregistered,
      created the VMs it brought up, and spawned says that no attempt to bring one up
      failed; [firstId, lastId) are the ids the cloud assigned. */
  datatype Tick = Tick(
    before: seq<VM>,
    listed: bool,
    now: int,
    queue: Queue,
    active: Probe,
    asked: set<nat>,
    deleted: set<nat>,
    removed: set<nat>,
    runners: seq<Runner>,
    dropped: seq<Runner>,
    created: seq<VM>,
    spawned: bool,
    after: seq<VM>,
    firstId: nat,
    lastId: nat)

  /** What a tick takes to be queued: nothing, if it could not see the queue. */
  function Counts(q: Queue): map<string, nat> {
    if q.Seen? then q.counts else map[]
  }

  function QueuedFor(t: Tick, arch: string): nat {
    if arch in Counts(t.queue) then Counts(t.queue)[arch] else 0
  }

  predicate SomeQueued(counts: map<string, nat>) {
    exists arch :: arch in counts && counts[arch] > 0
  }

  /** A failed probe of the running jobs counts as work; one of the queue does not. */
  predicate HasWork(t: Tick) {
    SomeQueued(Counts(t.queue)) || t.active != Running(0)
  }

  /** Off, or past its lifetime. */
  predicate Expired(lim: Limits, now: int, v: VM) {
    v.off || now - v.created > lim.maxLifetime
  }

  /** Known idle for longer than allowed. */
  predicate Due(lim: Limits, now: int, idle: map<nat, int>, v: VM) {
    !Expired(lim, now, v) && v.id in idle && now - idle[v.id] > lim.maxIdle
  }

  function LiveIds(lim: Limits, now: int, vms: seq<VM>): set<nat> {
    set v | v in vms && !Expired(lim, now, v) :: v.id
  }

  function ExpiredIds(lim: Limits, now: int, vms: seq<VM>): set<nat> {
    set v | v in vms && Expired(lim, now, v) :: v.id
  }

  function DueIds(lim: Limits, now: int, idle: map<nat, int>, vms: seq<VM>): set<nat> {
    set v | v in vms && Due(lim, now, idle, v) :: v.id
  }

  /** The VMs a tick idle-reaps. */
  function IdleReaped(lim: Limits, idle: map<nat, int>, t: Tick): set<nat> {
    if t.listed && !HasWork(t) then DueIds(lim, t.now, idle, t.before) else {}
  }

  /** The idle clocks after a tick without work: the VMs that are live and were not
      successfully idle-deleted, each with its old stamp or the present time. */
  function IdleClocks(lim: Limits, now: int, vms: seq<VM>, idle: map<nat, int>, deleted: set<nat>): map<nat, int> {
    map id | id in LiveIds(lim, now, vms) - DueIds(lim, now, idle, vms) * deleted ::
      if id in idle then idle[id] else now
  }

  function NextIdle(lim: Limits, idle: map<nat, int>, t: Tick): map<nat, int> {
    if !t.listed then idle
    else if HasWork(t) then map[]
    else IdleClocks(lim, t.now, t.before, idle, t.deleted)
  }

  /** The names ghost cleanup spares. */
  function SparedNames(lim: Limits, idle: map<nat, int>, t: Tick): set<string> {
    set v | v in t.before && !Expired(lim, t.now, v) && v.id !in IdleReaped(lim, idle, t) * t.deleted :: v.name
  }

  function Ghosts(runners: seq<Runner>, spared: set<string>): (r: seq<Runner>)
    ensures forall x :: x in r <==> x in runners && RUNNER_PREFIX <= x.name && x.name !in spared
  {
    if runners == [] then []
    else
      var rest := Ghosts(runners[..|runners| - 1], spared);
      var x := runners[|runners| - 1];
      if RUNNER_PREFIX <= x.name && x.name !in spared then rest + [x] else rest
  }

  function Max(a: int, b: int): int {
    if a < b then b else a
  }

  function Min(a: int, b: int): int {
    if a < b then a else b
  }

  /** How many VMs a tick may bring up for an architecture: live is what was listed,
      reaped or not. */
  function SpawnBound(lim: Limits, t: Tick, arch: string): nat {
    var live := Count(t.before, arch);
    Max(0, Min(QueuedFor(t, arch) - live, Cap(lim, arch) - live))
  }

  /** The tick did what reconciliation prescribes. */
  ghost predicate Reconciled(lim: Limits, idle: map<nat, int>, idle': map<nat, int>, t: Tick) {
    && Distinct(t.before)
    && idle' == NextIdle(lim, idle, t)
    && Counts(t.queue).Keys <= {"arm64", "amd64"}
    && (forall v :: v in t.before ==> v.id < t.firstId)
    && (forall v :: v in t.created ==> t.firstId <= v.id < t.lastId && "herold-runner-" <= v.name)
    && t.firstId <= t.lastId
    && t.asked == (if t.listed then ExpiredIds(lim, t.now, t.before) else {}) + IdleReaped(lim, idle, t)
    && t.deleted <= t.removed <= t.asked
    && t.after == Without(t.before, t.removed) + t.created
    && t.dropped == (if t.listed then Ghosts(t.runners, SparedNames(lim, idle, t)) else [])
    && (forall arch :: Count(t.created, arch) <= if t.listed then SpawnBound(lim, t, arch) else 0)
    && (forall arch :: t.listed && t.spawned ==> Count(t.created, arch) == SpawnBound(lim, t, arch))
  }

  // -- Runs -----------------------------------------------------------------

  /** What others may do to the pool: VMs vanish, or are switched on or off. */
  function Changed(vms: seq<VM>, gone: set<nat>, off: set<nat>): seq<VM> {
    if vms == [] then []
    else if vms[0].id in gone then Changed(vms[1..], gone, off)
    else [vms[0].(off := vms[0].id in off)] + Changed(vms[1..], gone, off)
  }

  ghost predicate Drifts(a: seq<VM>, b: seq<VM>) {
    exists gone, off :: b == Changed(a, gone, off)
  }

  /** A run: ticks in order of time, the idle clocks between them, and a pool that
      nobody else adds to. */
  ghost predicate IsHistory(lim: Limits, ticks: seq<Tick>, idles: seq<map<nat, int>>) {
    && |idles| == |ticks| + 1
    && idles[0] == map[]
    && (forall i :: 0 <= i < |ticks| ==> Reconciled(lim, idles[i], idles[i + 1], ticks[i]))
    && (forall i :: 0 < i < |ticks| ==>
          && ticks[i - 1].now <= ticks[i].now
          && ticks[i - 1].lastId <= ticks[i].firstId
          && Drifts(ticks[i - 1].after, ticks[i].before))
  }

  // -- When a VM is idle-reaped ---------------------------------------------

  /** From tick m on, every tick that listed the VMs saw no work and this VM live. */
  ghost predicate IdleSince(lim: Limits, ticks: seq<Tick>, m: nat, n: nat, id: nat)
    requires n <= |ticks|
  {
    && m < n && ticks[m].listed
    && forall k :: m <= k < n && ticks[k].listed ==>
                     !HasWork(ticks[k]) && id in LiveIds(lim, ticks[k].now, ticks[k].before)
  }

  /** Where a clock that runs after a tick comes from. */
  lemma ClockStep(lim: Limits, idle: map<nat, int>, t: Tick, id: nat)
    requires id in NextIdle(lim, idle, t)
    ensures t.listed ==> !HasWork(t) && id in LiveIds(lim, t.now, t.before)
    ensures !t.listed ==> id in idle
    ensures NextIdle(lim, idle, t)[id] == if id in idle then idle[id] else t.now
  {
  }

  lemma {:induction false} ClockRecorded(lim: Limits, ticks: seq<Tick>, idles: seq<map<nat, int>>, n: nat, id: nat)
    returns (m: nat)
    requires IsHistory(lim, ticks, idles) && n <= |ticks| && id in idles[n]
    ensures IdleSince(lim, ticks, m, n, id) && idles[n][id] == ticks[m].now
  {
    hide IsHistory, NextIdle, HasWork, LiveIds;
    HistoryStart(lim, ticks, idles);
    var t := ticks[n - 1];
    ClocksAt(lim, ticks, idles, n - 1);
    ClockStep(lim, idles[n - 1], t, id);
    if id in idles[n - 1] {
      m := ClockRecorded(lim, ticks, idles, n - 1, id);
    } else {
      m := n - 1;
    }
  }

  lemma HistoryStart(lim: Limits, ticks: seq<Tick>, idles: seq<map<nat, int>>)
    requires IsHistory(lim, ticks, idles)
    ensures |idles| == |ticks| + 1 && idles[0] == map[]
  {
  }

  lemma ClocksAt(lim: Limits, ticks: seq<Tick>, idles: seq<map<nat, int>>, n: nat)
    requires IsHistory(lim, ticks, idles) && n < |ticks|
    ensures idles[n + 1] == NextIdle(lim, idles[n], ticks[n])
  {
    hide NextIdle;
    assert Reconciled(lim, idles[n], idles[n + 1], ticks[n]);
  }

  /** A VM is idle-reaped only if an earlier tick, more than the limit before, saw it
      live without work, and so did every tick since that got past the listing. */
  lemma IdleReapJustified(lim: Limits, ticks: seq<Tick>, idles: seq<map<nat, int>>, n: nat, id: nat)
    returns (m: nat)
    requires IsHistory(lim, ticks, idles) && n < |ticks| && id in IdleReaped(lim, idles[n], ticks[n])
    ensures m < n && ticks[n].now - ticks[m].now > lim.maxIdle
    ensures IdleSince(lim, ticks, m, n + 1, id)
  {
    m := ClockRecorded(lim, ticks, idles, n, id);
  }

  /** A tick that reaps one VM, due by its clock. */
  function ReapTick(v: VM, now: int, q: Queue): Tick {
    Tick([v], true, now, q, Running(0), {v.id}, {}, {}, [], [], [], false, [v], v.id + 1, v.id + 1)
  }

  lemma ReapTickReconciled(lim: Limits, idle: map<nat, int>, now: int, v: VM, q: Queue)
    requires Due(lim, now, idle, v) && !SomeQueued(Counts(q)) && Counts(q).Keys <= {"arm64", "amd64"}
    ensures var t := ReapTick(v, now, q);
            Reconciled(lim, idle, NextIdle(lim, idle, t), t) && v.id in IdleReaped(lim, idle, t)
  {
    var t := ReapTick(v, now, q);
    WithoutNone([v]);
    assert v in t.before;
    assert ExpiredIds(lim, now, [v]) == {} && DueIds(lim, now, idle, [v]) == {v.id};
    assert Without(t.before, t.removed) + t.created == [v];
  }

  /** Jobs are waiting, and the probe of the queue either failed or told so. A VM that is
      due can be idle-reaped all the same if and only if the probe failed. */
  lemma ReapsBlindIff(lim: Limits, idle: map<nat, int>, now: int, v: VM, waiting: map<string, nat>, q: Queue)
    requires Due(lim, now, idle, v) && SomeQueued(waiting) && (q == Unseen || q == Seen(waiting))
    ensures q == Unseen <==>
              exists t :: Reconciled(lim, idle, NextIdle(lim, idle, t), t) && t.now == now && t.queue == q
                          && v in t.before && v.id in IdleReaped(lim, idle, t)
  {
    hide Reconciled, NextIdle, Due, DueIds;
    if q == Unseen {
      ReapTickReconciled(lim, idle, now, v, q);
      assert ReapTick(v, now, q).before == [v];
    }
  }

  /** A tick that could not list the VMs does nothing and leaves the clocks as they are;
      one that sees work stops them all. */
  lemma ClocksKept(lim: Limits, idle: map<nat, int>, idle': map<nat, int>, t: Tick)
    requires Reconciled(lim, idle, idle', t)
    ensures !t.listed ==> idle' == idle && t.after == t.before && t.asked == {} && t.dropped == []
    ensures t.listed && t.active != Running(0) ==> idle' == map[]
    ensures t.listed && t.queue.Seen? && (exists arch :: arch in t.queue.counts && t.queue.counts[arch] > 0) ==>
              idle' == map[]
  {
    hide SparedNames, Ghosts, IdleClocks, ExpiredIds, DueIds, Distinct;
    if !t.listed {
      WithoutNone(t.before);
      CountFirst(t.created);
      assert t.removed == {} && t.created == [];
      assert t.before + [] == t.before;
    }
  }

  // -- Which VMs are reaped -------------------------------------------------

  /** The tick listed the VM running and within its lifetime, knew of no job running, and
      saw no job queued, if it saw the queue. */
  ghost predicate SeenIdle(lim: Limits, t: Tick, id: nat) {
    && t.active == Running(0)
    && (t.queue.Seen? ==> forall arch :: arch in t.queue.counts ==> t.queue.counts[arch] == 0)
    && exists v :: v in t.before && v.id == id && !v.off && t.now - v.created <= lim.maxLifetime
  }

  /** Deletion of a VM is requested only if it is off, or has outlived its lifetime, or was
      seen idle by an earlier tick, longer ago than allowed, and by every tick since that
      listed the VMs. */
  lemma ReapedOnlyIf(lim: Limits, ticks: seq<Tick>, idles: seq<map<nat, int>>, n: nat, v: VM) returns (m: nat)
    requires IsHistory(lim, ticks, idles) && n < |ticks| && v in ticks[n].before && v.id in ticks[n].asked
    ensures ticks[n].listed
    ensures v.off || ticks[n].now - v.created > lim.maxLifetime ||
              (m < n && ticks[m].listed && ticks[n].now - ticks[m].now > lim.maxIdle
               && forall k :: m <= k <= n && ticks[k].listed ==> SeenIdle(lim, ticks[k], v.id))
  {
    m := 0;
    AskedFor(lim, ticks, idles, n, v);
    if !(v.off || ticks[n].now - v.created > lim.maxLifetime) {
      m := IdleReapJustified(lim, ticks, idles, n, v.id);
      forall k | m <= k <= n && ticks[k].listed ensures SeenIdle(lim, ticks[k], v.id) {
        IdleIsSeen(lim, ticks[k], v.id);
      }
    }
  }

  lemma AskedFor(lim: Limits, ticks: seq<Tick>, idles: seq<map<nat, int>>, n: nat, v: VM)
    requires IsHistory(lim, ticks, idles) && n < |ticks| && v in ticks[n].before && v.id in ticks[n].asked
    ensures ticks[n].listed
    ensures v.off || ticks[n].now - v.created > lim.maxLifetime || v.id in IdleReaped(lim, idles[n], ticks[n])
  {
    var t := ticks[n];
    assert Reconciled(lim, idles[n], idles[n + 1], t);
    if v.id in ExpiredIds(lim, t.now, t.before) {
      var w :| w in t.before && Expired(lim, t.now, w) && w.id == v.id;
      SameVm(t.before, v, w);
    }
  }

  lemma SameVm(vms: seq<VM>, v: VM, w: VM)
    requires Distinct(vms) && v in vms && w in vms && v.id == w.id
    ensures v == w
  {
  }

  lemma IdleIsSeen(lim: Limits, t: Tick, id: nat)
    requires !HasWork(t) && id in LiveIds(lim, t.now, t.before)
    ensures SeenIdle(lim, t, id)
  {
    var v :| v in t.before && !Expired(lim, t.now, v) && v.id == id;
  }

  lemma ExpiredAsked(lim: Limits, idle: map<nat, int>, idle': map<nat, int>, t: Tick, v: VM)
    requires Reconciled(lim, idle, idle', t) && t.listed && v in t.before
    requires v.off || t.now - v.created > lim.maxLifetime
    ensures v.id in t.asked && v.id < t.firstId
  {
    hide NextIdle, SparedNames, Ghosts, HasWork, SpawnBound;
    assert Expired(lim, t.now, v) && v.id in ExpiredIds(lim, t.now, t.before);
  }

  /** What is gone stays gone: no id is given twice. */
  lemma {:induction false} GoneForGood(lim: Limits, ticks: seq<Tick>, idles: seq<map<nat, int>>, n: nat, j: nat,
                                       id: nat)
    requires IsHistory(lim, ticks, idles) && n <= j < |ticks|
    requires id < ticks[n].firstId && id !in Ids(ticks[n].after)
    ensures id !in Ids(ticks[j].after) && (n < j ==> id !in Ids(ticks[j].before)) && id < ticks[j].firstId
  {
    hide Reconciled, Drifts, Ids;
    ClockInPast(lim, ticks, idles, n, j);
    if n < j {
      GoneForGood(lim, ticks, idles, n, j - 1, id);
      if id in Ids(ticks[j].before) {
        WasThere(ticks[j - 1].after, ticks[j].before, id);
      }
      NotMade(lim, idles[j], idles[j + 1], ticks[j], id);
    }
  }

  /** A tick that lists a VM that is off or has outlived its lifetime requests its deletion,
      and if that succeeds the VM is never listed again. */
  lemma OldVmGone(lim: Limits, ticks: seq<Tick>, idles: seq<map<nat, int>>, n: nat, v: VM)
    requires IsHistory(lim, ticks, idles) && n < |ticks| && ticks[n].listed && v in ticks[n].before
    requires v.off || ticks[n].now - v.created > lim.maxLifetime
    ensures v.id in ticks[n].asked
    ensures v.id in ticks[n].deleted ==>
              v.id !in Ids(ticks[n].after) && forall j :: n < j < |ticks| ==> v.id !in Ids(ticks[j].before)
  {
    hide Reconciled, Drifts, Ids;
    ExpiredAsked(lim, idles[n], idles[n + 1], ticks[n], v);
    if v.id in ticks[n].deleted {
      NotMade(lim, idles[n], idles[n + 1], ticks[n], v.id);
      forall j | n < j < |ticks| ensures v.id !in Ids(ticks[j].before) {
        GoneForGood(lim, ticks, idles, n, j, v.id);
      }
    }
  }

  /** What was there before a tick and is not after it is not made anew. */
  lemma NotMade(lim: Limits, idle: map<nat, int>, idle': map<nat, int>, t: Tick, id: nat)
    requires Reconciled(lim, idle, idle', t) && id < t.firstId
    ensures id !in Ids(t.before) || id in t.deleted ==> id !in Ids(t.after)
  {
    hide NextIdle, SparedNames, Ghosts, HasWork, SpawnBound;
    if id in Ids(t.after) {
      var v :| v in t.after && v.id == id;
      assert v in Without(t.before, t.removed) || v in t.created;
      assert v in t.before;
    }
  }

  // -- How large the pool gets ----------------------------------------------

  lemma {:induction false} DriftShrinks(vms: seq<VM>, gone: set<nat>, off: set<nat>, arch: string)
    ensures Count(Changed(vms, gone, off), arch) <= Count(vms, arch)
    ensures Ids(Changed(vms, gone, off)) <= Ids(vms)
  {
    if vms != [] {
      DriftShrinks(vms[1..], gone, off, arch);
      if vms[0].id !in gone {
        assert Changed(vms, gone, off)[1..] == Changed(vms[1..], gone, off);
      }
      assert vms[0].id in Ids(vms) && Ids(vms[1..]) <= Ids(vms);
    }
  }

  /** A tick takes an architecture's pool above its cap only if it was above already. */
  lemma TickBounded(lim: Limits, idle: map<nat, int>, idle': map<nat, int>, t: Tick, arch: string)
    requires Reconciled(lim, idle, idle', t)
    ensures Count(t.after, arch) <= Max(Count(t.before, arch), Cap(lim, arch))
  {
    hide NextIdle, SparedNames, Ghosts, HasWork;
    CountAppend(Without(t.before, t.removed), t.created, arch);
    CountWithout(t.before, t.removed, arch);
  }

  /** Over any run the pool never grows past the larger of its cap and what was there
      at the start. */
  lemma {:induction false} PoolBounded(lim: Limits, ticks: seq<Tick>, idles: seq<map<nat, int>>, n: nat, arch: string)
    requires IsHistory(lim, ticks, idles) && n < |ticks|
    ensures Count(ticks[n].before, arch) <= Max(Count(ticks[0].before, arch), Cap(lim, arch))
    ensures Count(ticks[n].after, arch) <= Max(Count(ticks[0].before, arch), Cap(lim, arch))
  {
    hide Reconciled;
    if n > 0 {
      PoolBounded(lim, ticks, idles, n - 1, arch);
      var gone, off :| ticks[n].before == Changed(ticks[n - 1].after, gone, off);
      DriftShrinks(ticks[n - 1].after, gone, off, arch);
    }
    TickBounded(lim, idles[n], idles[n + 1], ticks[n], arch);
  }

  /** So neither pool ever exceeds its own limit, unless it was larger to begin with, and no
      other architecture ever gains a VM. */
  lemma LimitsKept(lim: Limits, ticks: seq<Tick>, idles: seq<map<nat, int>>, n: nat)
    requires IsHistory(lim, ticks, idles) && n < |ticks|
    ensures var was, now := ticks[0].before, ticks[n].after;
            && (Count(now, "arm64") <= lim.maxArm || Count(now, "arm64") <= Count(was, "arm64"))
            && (Count(now, "amd64") <= lim.maxAmd || Count(now, "amd64") <= Count(was, "amd64"))
            && forall arch :: arch != "arm64" && arch != "amd64" ==> Count(now, arch) <= Count(was, arch)
  {
    hide IsHistory, Count;
    PoolBounded(lim, ticks, idles, n, "arm64");
    PoolBounded(lim, ticks, idles, n, "amd64");
    forall arch | arch != "arm64" && arch != "amd64"
      ensures Count(ticks[n].after, arch) <= Count(ticks[0].before, arch)
    {
      PoolBounded(lim, ticks, idles, n, arch);
    }
  }

  /** What a tick brings up when nothing fails, in numbers: as many as jobs are queued for
      the architecture beyond the VMs listed, as far as its own limit lets it. */
  lemma SpawnsExactly(lim: Limits, idle: map<nat, int>, idle': map<nat, int>, t: Tick, arm: nat, amd: nat)
    requires Reconciled(lim, idle, idle', t) && t.listed && t.spawned
    requires t.queue == Seen(map["arm64" := arm, "amd64" := amd])
    ensures var live := Count(t.before, "arm64");
            Count(t.created, "arm64") ==
              if arm <= live || lim.maxArm <= live then 0
              else (if arm <= lim.maxArm then arm else lim.maxArm) - live
    ensures var live := Count(t.before, "amd64");
            Count(t.created, "amd64") ==
              if amd <= live || lim.maxAmd <= live then 0
              else (if amd <= lim.maxAmd then amd else lim.maxAmd) - live
  {
    hide NextIdle, SparedNames, Ghosts, HasWork, Count, Distinct, ExpiredIds, IdleReaped;
    assert QueuedFor(t, "arm64") == arm && QueuedFor(t, "amd64") == amd;
    assert SpawnBound(lim, t, "arm64") >= 0 && SpawnBound(lim, t, "amd64") >= 0;
  }

  function Places(vms: seq<VM>, arch: string): set<nat> {
    set i: nat | i < |vms| && vms[i].arch == arch
  }

  /** Count counts the VMs of the architecture. */
  lemma {:induction false} CountIs(vms: seq<VM>, arch: string)
    ensures Count(vms, arch) == |Places(vms, arch)|
  {
    if vms == [] {
      assert Places(vms, arch) == {};
    } else {
      var some, v := vms[..|vms| - 1], vms[|vms| - 1];
      assert vms == some + [v];
      CountIs(some, arch);
      CountAppend(some, [v], arch);
      assert Count([v], arch) == if v.arch == arch then 1 else 0;
      assert Places(vms, arch) == if v.arch == arch then Places(some, arch) + {|some|} else Places(some, arch);
    }
  }

  /** If nothing is deleted and no spawn fails, the pool then covers the queue, as far as
      the cap lets it. */
  lemma QueueCovered(lim: Limits, idle: map<nat, int>, idle': map<nat, int>, t: Tick, arch: string)
    requires Reconciled(lim, idle, idle', t) && t.listed && t.spawned && t.removed == {}
    ensures Count(t.after, arch) >= Min(QueuedFor(t, arch), Cap(lim, arch))
  {
    hide NextIdle, SparedNames, Ghosts, HasWork;
    WithoutNone(t.before);
    CountAppend(t.before, t.created, arch);
  }

  lemma CountFirst(vms: seq<VM>)
    ensures vms == [] || Count(vms, vms[0].arch) > 0
  {
  }

  /** No tick both idle-reaps and spawns. */
  lemma ReapsOrSpawns(lim: Limits, idle: map<nat, int>, idle': map<nat, int>, t: Tick)
    requires Reconciled(lim, idle, idle', t)
    ensures IdleReaped(lim, idle, t) == {} || t.created == []
  {
    if IdleReaped(lim, idle, t) != {} {
      assert forall arch :: QueuedFor(t, arch) == 0;
      CountFirst(t.created);
    }
  }

  // -- Runners of VMs that are kept -----------------------------------------

  /** A listed VM's runner is deregistered exactly when the VM had expired or was
      idle-deleted; so, while the VM is still there, exactly when it had expired and
      its deletion did not take effect. */
  lemma RunnerDropped(lim: Limits, idle: map<nat, int>, idle': map<nat, int>, t: Tick, v: VM, x: Runner)
    requires Reconciled(lim, idle, idle', t) && t.listed
    requires v in t.before && x in t.runners && x.name == v.name && RUNNER_PREFIX <= x.name
    ensures x in t.dropped <==> Expired(lim, t.now, v) || v.id in IdleReaped(lim, idle, t) * t.deleted
    ensures v in t.after ==> (x in t.dropped <==> Expired(lim, t.now, v))
  {
    hide NextIdle, SpawnBound, HasWork;
    SparedExactly(lim, idle, t, v);
    if v in t.after {
      assert v.id !in t.removed;
    }
  }

  /** And that does happen: the deletion of an expired VM is refused, the VM is still
      there, and its runner is deregistered. */
  lemma RunnerOfPresentVmDropped(lim: Limits, idle: map<nat, int>, now: int, v: VM, id: nat) returns (t: Tick)
    requires Expired(lim, now, v) && RUNNER_PREFIX <= v.name
    ensures Reconciled(lim, idle, map[], t) && t.listed && t.now == now
    ensures v in t.after && Runner(id, v.name) in t.dropped
  {
    var x := Runner(id, v.name);
    t := Tick([v], true, now, Unseen, ProbeFailed, {v.id}, {}, {}, [x], [x], [], true, [v], v.id + 1, v.id + 1);
    WithoutNone([v]);
    assert [x][..0] == [] && Ghosts([], {}) == [];
    assert ExpiredIds(lim, now, [v]) == {v.id};
    assert SparedNames(lim, idle, t) == {};
    assert t.after == Without(t.before, t.removed) + t.created;
  }

  lemma SparedExactly(lim: Limits, idle: map<nat, int>, t: Tick, v: VM)
    requires Distinct(t.before) && v in t.before
    ensures v.name in SparedNames(lim, idle, t) <==>
              !Expired(lim, t.now, v) && v.id !in IdleReaped(lim, idle, t) * t.deleted
  {
  }

  /** Nothing that is not the pool's own is deregistered, and no runner of a VM that was
      listed running within its lifetime, unless that was deleted. */
  lemma OnlyOwnRunnersDropped(lim: Limits, idle: map<nat, int>, idle': map<nat, int>, t: Tick, x: Runner)
    requires Reconciled(lim, idle, idle', t) && x in t.dropped
    ensures t.listed && x in t.runners && "herold-runner-" <= x.name && x.name !in SparedNames(lim, idle, t)
    ensures forall v :: v in t.before && v.name == x.name ==>
              v.off || t.now - v.created > lim.maxLifetime || v.id in t.deleted
  {
    forall v | v in t.before && v.name == x.name
      ensures v.off || t.now - v.created > lim.maxLifetime || v.id in t.deleted
    {
      SparedExactly(lim, idle, t, v);
    }
  }

  /** And every own runner without such a VM is deregistered. */
  lemma GhostsDropped(lim: Limits, idle: map<nat, int>, idle': map<nat, int>, t: Tick, x: Runner)
    requires Reconciled(lim, idle, idle', t) && t.listed && x in t.runners && "herold-runner-" <= x.name
    requires forall v :: v in t.before && v.name == x.name ==> v.off || t.now - v.created > lim.maxLifetime
    ensures x in t.dropped
  {
    hide NextIdle, SpawnBound, HasWork, IdleReaped;
    assert x.name !in SparedNames(lim, idle, t);
  }

  // -- An idle pool drains --------------------------------------------------

  /** The tick listed, saw no work, and every delete it made succeeded. */
  predicate Quiet(t: Tick) {
    t.listed && !HasWork(t) && t.asked == t.deleted
  }

  /** What a quiet tick leaves is live, on the clock, and not yet due. */
  lemma AfterQuiet(lim: Limits, idle: map<nat, int>, idle': map<nat, int>, t: Tick, id: nat)
    requires Reconciled(lim, idle, idle', t) && Quiet(t) && id < t.firstId && id in Ids(t.after)
    ensures id in Ids(t.before) && id in idle'
    ensures idle'[id] == (if id in idle then idle[id] else t.now)
    ensures id in idle ==> t.now - idle[id] <= lim.maxIdle
  {
    hide HasWork, SparedNames, Ghosts, SpawnBound;
    var v :| v in t.after && v.id == id;
    assert v in Without(t.before, t.removed);
    assert v in t.before;
    assert id !in ExpiredIds(lim, t.now, t.before) && id !in DueIds(lim, t.now, idle, t.before);
    assert !Expired(lim, t.now, v);
    assert !Due(lim, t.now, idle, v);
  }

  lemma {:induction false} ClockInPast(lim: Limits, ticks: seq<Tick>, idles: seq<map<nat, int>>, i: nat, n: nat)
    requires IsHistory(lim, ticks, idles) && i <= n < |ticks|
    ensures ticks[i].now <= ticks[n].now && ticks[i].firstId <= ticks[n].firstId
  {
    if i < n {
      ClockInPast(lim, ticks, idles, i, n - 1);
      assert Reconciled(lim, idles[n - 1], idles[n], ticks[n - 1]);
    }
  }

  /** A VM of tick i that is still there after tick n has been on the clock since i. */
  lemma {:induction false} StillThere(lim: Limits, ticks: seq<Tick>, idles: seq<map<nat, int>>, i: nat, n: nat, id: nat)
    requires IsHistory(lim, ticks, idles) && i <= n < |ticks|
    requires forall k :: i <= k <= n ==> Quiet(ticks[k])
    requires id < ticks[i].firstId && id in Ids(ticks[n].after)
    ensures id in idles[n + 1] && idles[n + 1][id] <= ticks[i].now
    ensures ticks[n].now - ticks[i].now <= lim.maxIdle || i == n
  {
    hide Reconciled, Quiet, Drifts;
    ClockInPast(lim, ticks, idles, i, n);
    AfterQuiet(lim, idles[n], idles[n + 1], ticks[n], id);
    if i == n {
      if id in idles[n] {
        var m := ClockRecorded(lim, ticks, idles, n, id);
        ClockInPast(lim, ticks, idles, m, n);
      }
    } else {
      WasThere(ticks[n - 1].after, ticks[n].before, id);
      StillThere(lim, ticks, idles, i, n - 1, id);
    }
  }

  lemma WasThere(a: seq<VM>, b: seq<VM>, id: nat)
    requires Drifts(a, b) && id in Ids(b)
    ensures id in Ids(a)
  {
    var gone, off :| b == Changed(a, gone, off);
    DriftShrinks(a, gone, off, "");
  }

  /** If every tick over a span longer than the idle limit is quiet, no VM listed at its
      start is left at its end. */
  lemma IdlePoolDrains(lim: Limits, ticks: seq<Tick>, idles: seq<map<nat, int>>, i: nat, n: nat, v: VM)
    requires IsHistory(lim, ticks, idles) && i < n < |ticks|
    requires forall k :: i <= k <= n ==> Quiet(ticks[k])
    requires ticks[n].now - ticks[i].now > lim.maxIdle && v in ticks[i].before
    ensures v.id !in Ids(ticks[n].after)
  {
    assert Reconciled(lim, idles[i], idles[i + 1], ticks[i]);
    if v.id in Ids(ticks[n].after) {
      StillThere(lim, ticks, idles, i, n, v.id);
      assert false;
    }
  }
}
