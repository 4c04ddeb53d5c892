/** Replay nonces (section 6.5 of RFC 8555): the one-place cache shared by all
    concurrent posts, and post's retry loop (internal/acme/directory.go). */
module Nonces {

  const MAX_ATTEMPTS: nat := 3

  /** A Replay-Nonce value. Only equality matters; NONE is the empty string. */
  type Nonce = nat
  const NONE: Nonce := 0

  // -- All posts in progress, as a machine ----------------------------------

  /** One post: which attempt it is on, and the nonce it has in hand. */
  datatype Call =
    | NeedNonce(attempt: nat)
    | Fetching(attempt: nat)
    | Holding(attempt: nat, nonce: Nonce)
    | InFlight(attempt: nat)
    | Replied(attempt: nat, given: Nonce, badNonce: bool)
    | Finished

  /** The cache, the posts, and (for the record) every nonce signed into a request
      and every nonce the server has handed out, with multiplicity. */
  datatype Net = Net(cache: Nonce, calls: seq<Call>, signed: multiset<Nonce>, issued: multiset<Nonce>)

  datatype Label =
    | Begin
    | Take(i: nat)                                  // nonceCache.take
    | Head(i: nat, given: Nonce)                   // newNonce answered
    | HeadFailed(i: nat)                            // no answer, or no directory
    | Sign(i: nat)                                  // signed and sent
    | SignFailed(i: nat)
    | Lost(i: nat)                                  // transport error
    | Reply(i: nat, given: Nonce, badNonce: bool)  // response received
    | Absorb(i: nat)                                // nonceCache.put, then retry or return

  predicate CanStep(n: Net, l: Label) {
    match l
    case Begin => true
    case Take(i) => i < |n.calls| && n.calls[i].NeedNonce?
    case Head(i, given) => i < |n.calls| && n.calls[i].Fetching?
    case HeadFailed(i) => i < |n.calls| && n.calls[i].Fetching?
    case Sign(i) => i < |n.calls| && n.calls[i].Holding?
    case SignFailed(i) => i < |n.calls| && n.calls[i].Holding?
    case Lost(i) => i < |n.calls| && n.calls[i].InFlight?
    case Reply(i, given, bad) => i < |n.calls| && n.calls[i].InFlight?
    case Absorb(i) => i < |n.calls| && n.calls[i].Replied?
  }

  function Retry(attempt: nat): Call {
    if attempt + 1 < MAX_ATTEMPTS then NeedNonce(attempt + 1) else Finished
  }

  function Issue(issued: multiset<Nonce>, v: Nonce): multiset<Nonce> {
    if v == NONE then issued else issued[v := issued[v] + 1]
  }

  function Step(n: Net, l: Label): Net
    requires CanStep(n, l)
  {
    match l
    case Begin => n.(calls := n.calls + [NeedNonce(0)])
    case Take(i) =>
      var a := n.calls[i].attempt;
      n.(cache := NONE, calls := n.calls[i := if n.cache != NONE then Holding(a, n.cache) else Fetching(a)])
    case Head(i, given) =>
      n.(calls := n.calls[i := if given == NONE then Finished else Holding(n.calls[i].attempt, given)],
         issued := Issue(n.issued, given))
    case HeadFailed(i) => n.(calls := n.calls[i := Finished])
    case Sign(i) =>
      n.(calls := n.calls[i := InFlight(n.calls[i].attempt)],
         signed := n.signed[n.calls[i].nonce := n.signed[n.calls[i].nonce] + 1])
    case SignFailed(i) => n.(calls := n.calls[i := Finished])
    case Lost(i) => n.(calls := n.calls[i := Retry(n.calls[i].attempt)])
    case Reply(i, given, bad) =>
      n.(calls := n.calls[i := Replied(n.calls[i].attempt, given, bad)], issued := Issue(n.issued, given))
    case Absorb(i) =>
      var c := n.calls[i];
      n.(cache := if c.given != NONE then c.given else n.cache,
         calls := n.calls[i := if c.badNonce then Retry(c.attempt) else Finished])
  }

  function NetRun(n: Net, ls: seq<Label>): Net
    requires IsPath(n, ls)
    decreases |ls|
  {
    if ls == [] then n else NetRun(Step(n, ls[0]), ls[1..])
  }

  predicate IsPath(n: Net, ls: seq<Label>)
    decreases |ls|
  {
    ls == [] || (CanStep(n, ls[0]) && IsPath(Step(n, ls[0]), ls[1..]))
  }

  // -- Conservation ---------------------------------------------------------

  /** How often v is cached, or in the hand of a call: 0 or 1. */
  function Cached(cache: Nonce, v: Nonce): nat {
    if cache == v && v != NONE then 1 else 0
  }

  function HeldBy(c: Call, v: Nonce): nat {
    match c
    case Holding(_, w) => if w == v then 1 else 0
    case Replied(_, w, _) => if w == v && v != NONE then 1 else 0
    case _ => 0
  }

  function Held(calls: seq<Call>, v: Nonce): nat {
    if calls == [] then 0 else HeldBy(calls[0], v) + Held(calls[1..], v)
  }

  /** Whatever the server does, a nonce is signed, in hand or cached in all at most
      as often as it was handed out. */
  ghost predicate Conserved(n: Net) {
    forall v: Nonce :: n.signed[v] + Held(n.calls, v) + Cached(n.cache, v) <= n.issued[v]
  }

  lemma {:induction false} HeldAppend(calls: seq<Call>, c: Call, v: Nonce)
    ensures Held(calls + [c], v) == Held(calls, v) + HeldBy(c, v)
  {
    if calls != [] {
      assert (calls + [c])[1..] == calls[1..] + [c];
      HeldAppend(calls[1..], c, v);
    }
  }

  lemma {:induction false} HeldUpdate(calls: seq<Call>, i: nat, c: Call, v: Nonce)
    requires i < |calls|
    ensures Held(calls[i := c], v) + HeldBy(calls[i], v) == Held(calls, v) + HeldBy(c, v)
  {
    if i > 0 {
      assert calls[i := c][1..] == calls[1..][i - 1 := c];
      HeldUpdate(calls[1..], i - 1, c, v);
    } else {
      assert calls[i := c][1..] == calls[1..];
    }
  }

  /** What leaves a call's hand goes into a signature or the cache, or is dropped;
      what comes into it comes from the cache or the server. */
  lemma ConservedAt(n: Net, l: Label, v: Nonce)
    requires CanStep(n, l) && n.signed[v] + Held(n.calls, v) + Cached(n.cache, v) <= n.issued[v]
    ensures var n' := Step(n, l); n'.signed[v] + Held(n'.calls, v) + Cached(n'.cache, v) <= n'.issued[v]
  {
    if l.Begin? {
      HeldAppend(n.calls, NeedNonce(0), v);
    } else {
      HeldUpdate(n.calls, l.i, Step(n, l).calls[l.i], v);
    }
  }

  lemma StepConserves(n: Net, l: Label)
    requires CanStep(n, l) && Conserved(n)
    ensures Conserved(Step(n, l))
  {
    forall v: Nonce {
      ConservedAt(n, l, v);
    }
  }

  lemma {:induction false} Conservation(n: Net, ls: seq<Label>)
    requires IsPath(n, ls) && Conserved(n)
    ensures Conserved(NetRun(n, ls))
    decreases |ls|
  {
    if ls != [] {
      StepConserves(n, ls[0]);
      Conservation(Step(n, ls[0]), ls[1..]);
    }
  }

  /** How often a step throws v away: when another nonce takes its place in the cache, and
      when the request it was for could not be signed. */
  function DroppedBy(n: Net, l: Label, v: Nonce): nat
    requires CanStep(n, l)
  {
    match l
    case Absorb(i) => if n.calls[i].given != NONE && n.cache == v && v != NONE then 1 else 0
    case SignFailed(i) => if n.calls[i].nonce == v then 1 else 0
    case _ => 0
  }

  function Dropped(n: Net, ls: seq<Label>, v: Nonce): nat
    requires IsPath(n, ls)
    decreases |ls|
  {
    if ls == [] then 0 else DroppedBy(n, ls[0], v) + Dropped(Step(n, ls[0]), ls[1..], v)
  }

  lemma AccountedAt(n: Net, l: Label, v: Nonce)
    requires CanStep(n, l) && v != NONE
    ensures var n' := Step(n, l);
            n'.signed[v] + Held(n'.calls, v) + Cached(n'.cache, v) + DroppedBy(n, l, v) + n.issued[v] ==
              n.signed[v] + Held(n.calls, v) + Cached(n.cache, v) + n'.issued[v]
  {
    if l.Begin? {
      HeldAppend(n.calls, NeedNonce(0), v);
    } else {
      HeldUpdate(n.calls, l.i, Step(n, l).calls[l.i], v);
    }
  }

  /** Every nonce handed out is signed into a request, in the hand of a post, cached, or was
      thrown away in one of the two ways there are: none is lost otherwise. */
  lemma {:induction false} EveryNonceAccounted(n: Net, ls: seq<Label>, v: Nonce)
    requires IsPath(n, ls) && v != NONE
    requires n.signed[v] + Held(n.calls, v) + Cached(n.cache, v) == n.issued[v]
    ensures var n' := NetRun(n, ls);
            n'.signed[v] + Held(n'.calls, v) + Cached(n'.cache, v) + Dropped(n, ls, v) == n'.issued[v]
    decreases |ls|
  {
    AccountedOn(n, ls, v);
  }

  lemma {:induction false} AccountedOn(n: Net, ls: seq<Label>, v: Nonce)
    requires IsPath(n, ls) && v != NONE
    ensures var n' := NetRun(n, ls);
            n'.signed[v] + Held(n'.calls, v) + Cached(n'.cache, v) + Dropped(n, ls, v) + n.issued[v] ==
              n.signed[v] + Held(n.calls, v) + Cached(n.cache, v) + n'.issued[v]
    decreases |ls|
  {
    if ls != [] {
      AccountedAt(n, ls[0], v);
      AccountedOn(Step(n, ls[0]), ls[1..], v);
    }
  }

  const NOTHING_YET: Net := Net(NONE, [], multiset{}, multiset{})

  /** Over every interleaving of any number of posts, with any losses and badNonce
      replies: if the server never hands out a nonce twice, no nonce is signed into
      two requests, and the cached one has not been used. */
  lemma NoNonceReused(ls: seq<Label>, v: Nonce)
    requires IsPath(NOTHING_YET, ls) && NetRun(NOTHING_YET, ls).issued[v] <= 1
    ensures NetRun(NOTHING_YET, ls).signed[v] <= 1
    ensures v != NONE && v == NetRun(NOTHING_YET, ls).cache ==> v !in NetRun(NOTHING_YET, ls).signed
  {
    assert Conserved(NOTHING_YET);
    Conservation(NOTHING_YET, ls);
    var n := NetRun(NOTHING_YET, ls);
    assert n.signed[v] + Held(n.calls, v) + Cached(n.cache, v) <= n.issued[v];
  }

  lemma PathCons(n: Net, l: Label, n': Net, ls: seq<Label>)
    requires CanStep(n, l) && Step(n, l) == n' && IsPath(n', ls)
    ensures IsPath(n, [l] + ls) && NetRun(n, [l] + ls) == NetRun(n', ls)
  {
    assert ([l] + ls)[1..] == ls;
  }

  /** A post that was handed v a second time with badNonce retries with it. */
  lemma RetryUses(v: Nonce)
    requires v != NONE
    ensures var n := Net(NONE, [InFlight(0)], multiset{v}, multiset{v});
            var ls := [Reply(0, v, true)] + ([Absorb(0)] + ([Take(0)] + ([Sign(0)] + [])));
            IsPath(n, ls) && NetRun(n, ls).signed[v] == 2
  {
    var n0 := Net(NONE, [InFlight(0)], multiset{v}, multiset{v});
    var n1 := Net(NONE, [Replied(0, v, true)], multiset{v}, multiset{v, v});
    var n2 := Net(v, [NeedNonce(1)], multiset{v}, multiset{v, v});
    var n3 := Net(NONE, [Holding(1, v)], multiset{v}, multiset{v, v});
    var n4 := Net(NONE, [InFlight(1)], multiset{v, v}, multiset{v, v});
    assert IsPath(n4, []) && NetRun(n4, []) == n4;
    hide IsPath, NetRun;
    PathCons(n3, Sign(0), n4, []);
    PathCons(n2, Take(0), n3, [Sign(0)] + []);
    PathCons(n1, Absorb(0), n2, [Take(0)] + ([Sign(0)] + []));
    PathCons(n0, Reply(0, v, true), n1, [Absorb(0)] + ([Take(0)] + ([Sign(0)] + [])));
  }

  /** The proviso is needed: a server that hands out v twice sees it signed twice. */
  lemma RepeatedNonceIsReused(v: Nonce)
    requires v != NONE
    ensures exists ls :: IsPath(NOTHING_YET, ls) && NetRun(NOTHING_YET, ls).signed[v] == 2
  {
    hide IsPath, NetRun;
    var n1 := Net(NONE, [NeedNonce(0)], multiset{}, multiset{});
    var n2 := Net(NONE, [Fetching(0)], multiset{}, multiset{});
    var n3 := Net(NONE, [Holding(0, v)], multiset{}, multiset{v});
    var n4 := Net(NONE, [InFlight(0)], multiset{v}, multiset{v});
    var ls := [Reply(0, v, true)] + ([Absorb(0)] + ([Take(0)] + ([Sign(0)] + [])));
    RetryUses(v);
    PathCons(n3, Sign(0), n4, ls);
    PathCons(n2, Head(0, v), n3, [Sign(0)] + ls);
    PathCons(n1, Take(0), n2, [Head(0, v)] + ([Sign(0)] + ls));
    PathCons(NOTHING_YET, Begin, n1, [Take(0)] + ([Head(0, v)] + ([Sign(0)] + ls)));
  }

  // -- One post, among others -----------------------------------------------

  ghost predicate Reaches(n: Net, n': Net) {
    exists ls :: IsPath(n, ls) && NetRun(n, ls) == n'
  }

  lemma ReachesSelf(n: Net)
    ensures Reaches(n, n)
  {
    assert IsPath(n, []) && NetRun(n, []) == n;
  }

  lemma {:induction false} PathThrough(n: Net, ls: seq<Label>, ms: seq<Label>)
    requires IsPath(n, ls) && IsPath(NetRun(n, ls), ms)
    ensures IsPath(n, ls + ms) && NetRun(n, ls + ms) == NetRun(NetRun(n, ls), ms)
    decreases |ls|
  {
    if ls == [] {
      assert ls + ms == ms;
    } else {
      assert (ls + ms)[1..] == ls[1..] + ms;
      PathThrough(Step(n, ls[0]), ls[1..], ms);
    }
  }

  lemma ReachesOn(n: Net, n1: Net, n2: Net)
    requires Reaches(n, n1) && Reaches(n1, n2)
    ensures Reaches(n, n2)
  {
    var ls :| IsPath(n, ls) && NetRun(n, ls) == n1;
    var ms :| IsPath(n1, ms) && NetRun(n1, ms) == n2;
    PathThrough(n, ls, ms);
  }

  lemma ReachesStep(n: Net, l: Label)
    requires CanStep(n, l)
    ensures Reaches(n, Step(n, l))
  {
    assert IsPath(Step(n, l), []);
    PathCons(n, l, Step(n, l), []);
  }

  class NonceCache {
    var value: Nonce

    constructor ()
      ensures value == NONE
    {
      value := NONE;
    }

    method Take() returns (v: Nonce)
      modifies this
      ensures v == old(value) && value == NONE
    {
      v := value;
      value := NONE;
    }

    method Put(v: Nonce)
      modifies this
      ensures value == if v == NONE then old(value) else v
    {
      if v != NONE {
        value := v;
      }
    }
  }

  /** How one attempt of a post ended. */
  datatype Ending = NoNonce | NotSigned | TransportError | BadNonce | Problem | Undecodable | Succeeded

  predicate Retried(e: Ending) {
    e == TransportError || e == BadNonce
  }

  class Poster {
    const cache: NonceCache
    // For the record, all posts, and how the last one ended.
    ghost var net: Net
    ghost var ending: Ending

    constructor ()
      ensures Valid() && fresh(cache) && net == NOTHING_YET
    {
      cache := new NonceCache();
      net := NOTHING_YET;
    }

    ghost predicate Valid()
      reads this, cache
    {
      cache.value == net.cache
    }

    /** The other goroutines: any number of steps of other posts, and perhaps none.
        Callers know no more than this contract. */
    method OthersRun(ghost start: Net, ghost i: nat)
      requires Valid() && i < |net.calls| && Reaches(start, net)
      modifies this, cache
      ensures Valid() && i < |net.calls| && net.calls[i] == old(net.calls[i])
      ensures Reaches(start, net)
    {
    }

    ghost method Note(start: Net, l: Label)
      requires CanStep(net, l) && Reaches(start, net)
      modifies this
      ensures net == Step(old(net), l) && Reaches(start, net)
    {
      ReachesStep(net, l);
      ReachesOn(start, net, Step(net, l));
      net := Step(net, l);
    }

    /** fetchNonce: the cached nonce, or one from newNonce. */
    method FetchNonce(ghost start: Net, ghost i: nat) returns (v: Nonce)
      requires Valid() && Reaches(start, net) && i < |net.calls| && net.calls[i].NeedNonce?
      modifies this, cache
      ensures Valid() && Reaches(start, net) && i < |net.calls|
      ensures net.calls[i] == if v == NONE then Finished else Holding(old(net.calls[i]).attempt, v)
    {
      v := cache.Take();
      Note(start, Take(i));
      if v == NONE {
        OthersRun(start, i);
        var answered: bool := *;
        v := *;
        if answered {
          Note(start, Head(i, v));
        } else {
          v := NONE;
          Note(start, HeadFailed(i));
        }
      }
    }

    /** signRequest and the POST itself. */
    method Send(ghost start: Net, ghost i: nat, nonce: Nonce) returns (sent: bool)
      requires Valid() && Reaches(start, net) && i < |net.calls|
      requires net.calls[i].Holding? && net.calls[i].nonce == nonce
      modifies this
      ensures Valid() && Reaches(start, net) && i < |net.calls|
      ensures net.calls[i] == if sent then InFlight(old(net.calls[i]).attempt) else Finished
      ensures net.signed == if sent then old(net.signed[nonce := net.signed[nonce] + 1]) else old(net.signed)
    {
      sent := *;
      if sent {
        Note(start, Sign(i));
      } else {
        Note(start, SignFailed(i));
      }
    }

    /** The response: its Replay-Nonce goes into the cache, its status decides. */
    method Receive(ghost start: Net, ghost i: nat) returns (ending: Ending)
      requires Valid() && Reaches(start, net) && i < |net.calls| && net.calls[i].InFlight?
      modifies this, cache
      ensures Valid() && Reaches(start, net) && i < |net.calls|
      ensures net.calls[i] == if Retried(ending) then Retry(old(net.calls[i]).attempt) else Finished
      ensures ending in {TransportError, BadNonce, Problem, Undecodable, Succeeded}
    {
      ending := *;
      if ending == NoNonce || ending == NotSigned || ending == TransportError {
        Note(start, Lost(i));
        return TransportError;
      }
      var v: Nonce := *;
      Note(start, Reply(i, v, ending == BadNonce));
      OthersRun(start, i);
      cache.Put(v);
      Note(start, Absorb(i));
    }

    /** One turn of the retry loop. */
    method Attempt(ghost start: Net, ghost i: nat) returns (ending: Ending)
      requires Valid() && Reaches(start, net) && i < |net.calls| && net.calls[i].NeedNonce?
      modifies this, cache
      ensures Valid() && Reaches(start, net) && i < |net.calls|
      ensures net.calls[i] == if Retried(ending) then Retry(old(net.calls[i]).attempt) else Finished
    {
      var nonce := FetchNonce(start, i);
      if nonce == NONE {
        return NoNonce;
      }
      OthersRun(start, i);
      var sent := Send(start, i, nonce);
      if !sent {
        return NotSigned;
      }
      OthersRun(start, i);
      ending := Receive(start, i);
    }

    /** post: a call of its own, run to its end in at most three attempts, each with a
        nonce of its own; all but the last ended in a transport error or a badNonce
        problem. The other posts may take any steps of theirs in between. */
    method Post() returns (log: seq<Ending>)
      requires Valid()
      modifies this, cache
      ensures Valid() && Reaches(old(net), net)
      ensures |net.calls| > |old(net).calls| && net.calls[|old(net).calls|] == Finished
      ensures 1 <= |log| <= 3
      ensures forall k :: 0 <= k < |log| - 1 ==> log[k] == TransportError || log[k] == BadNonce
      ensures |log| < 3 ==> log[|log| - 1] != TransportError && log[|log| - 1] != BadNonce
      ensures this.ending == log[|log| - 1]
    {
      ghost var start, i := net, |net.calls|;
      ReachesSelf(net);
      Note(start, Begin);
      log := [];
      for attempt := 0 to MAX_ATTEMPTS
        invariant Valid() && Reaches(start, net) && i < |net.calls|
        invariant net.calls[i] == if attempt < MAX_ATTEMPTS then NeedNonce(attempt) else Finished
        invariant |log| == attempt && (attempt > 0 ==> ending == log[attempt - 1])
        invariant forall k :: 0 <= k < |log| ==> Retried(log[k])
      {
        OthersRun(start, i);
        var end := Attempt(start, i);
        log := log + [end];
        ending := end;
        if !Retried(end) {
          return;
        }
      }
    }
  }
}
