/** bindListeners, bindOne and bindOneAddress of internal/admin/server.go, and
    ResolveBindAddresses of internal/sysconfig/sysconfig.go: sockets are opened for all
    configured listeners, or none is left open. */
module Listeners {
  import opened Options
  import opened Strings

  /** sysconfig.ListenerConfig. */
  datatype Listener = Listener(
    name: string,
    protocol: string,
    address: string,
    tls: string,
    plainAuth: bool,
    proxy: bool)

  /** A bound listener: which socket, the address asked for, the one the kernel bound,
      and whether it is wrapped to decode the PROXY protocol. */
  datatype Socket = Socket(id: nat, asked: string, addr: string, proxied: bool)

  datatype Kind =
    | Relay
    | Submission(implicitTls: bool, plainAuth: bool)
    | Imap(implicitTls: bool, plainAuth: bool)
    | ManageSieve(plainAuth: bool)
    | Web(forwarded: bool)

  /** A serve function: what is served, on which listener. */
  datatype Serve = Serve(kind: Kind, on: Socket)

  datatype NamedServe = NamedServe(name: string, fn: Serve)
  datatype NamedAddr = NamedAddr(name: string, addr: string)

  /** net.SplitHostPort: host and port, or an error. */
  type Splitter = string -> Option<(string, string)>

  // -- What a listener asks for ---------------------------------------------

  /** The protocols that are served; none for an unknown one. */
  function KindOf(l: Listener): Option<Kind> {
    match l.protocol
    case "smtp" => Some(Relay)
    case "smtp-submission" => Some(Submission(l.tls == "implicit", l.plainAuth))
    case "imap" => Some(Imap(l.tls == "implicit", l.plainAuth))
    case "managesieve" => Some(ManageSieve(l.plainAuth))
    case "http" => Some(Web(l.proxy))
    case _ => None
  }

  /** Which protocol is served how; an unknown one is not served. */
  lemma ServedAs(l: Listener)
    ensures KindOf(l) == Some(Relay) <==> l.protocol == "smtp"
    ensures l.protocol == "smtp-submission" <==> KindOf(l) == Some(Submission(l.tls == "implicit", l.plainAuth))
    ensures l.protocol == "imap" <==> KindOf(l) == Some(Imap(l.tls == "implicit", l.plainAuth))
    ensures l.protocol == "managesieve" <==> KindOf(l) == Some(ManageSieve(l.plainAuth))
    ensures l.protocol == "http" <==> KindOf(l) == Some(Web(l.proxy))
    ensures KindOf(l).None? <==> l.protocol !in {"smtp", "smtp-submission", "imap", "managesieve", "http"}
  {
  }

  /** ResolveBindAddresses: localhost stands for both loopback addresses. */
  function Addresses(split: Splitter, address: string): (r: Option<seq<string>>)
    ensures r.None? <==> address != "" && split(address).None?
    ensures r.Some? ==>
              r.value == if address != "" && EqualFold(split(address).value.0, "localhost")
                         then ["127.0.0.1:" + split(address).value.1, "[::1]:" + split(address).value.1]
                         else [address]
  {
    if address == "" then Some([""])
    else
      var hp := split(address);
      if hp.None? then None
      else if EqualFold(hp.value.0, "localhost") then
        Some(["127.0.0.1:" + hp.value.1, "[::1]:" + hp.value.1])
      else Some([address])
  }

  predicate IsHttp(l: Listener) {
    l.protocol == "http"
  }

  function Mail(ls: seq<Listener>): seq<Listener> {
    if ls == [] then []
    else
      var rest, l := Mail(ls[..|ls| - 1]), ls[|ls| - 1];
      if IsHttp(l) then rest else rest + [l]
  }

  function Http(ls: seq<Listener>): seq<Listener> {
    if ls == [] then []
    else
      var rest, l := Http(ls[..|ls| - 1]), ls[|ls| - 1];
      if IsHttp(l) then rest + [l] else rest
  }

  /** The order of binding. */
  function InOrder(ls: seq<Listener>): seq<Listener> {
    Mail(ls) + Http(ls)
  }

  lemma {:induction false} Sorted(ls: seq<Listener>)
    ensures (forall l :: l in Mail(ls) ==> !IsHttp(l)) && (forall l :: l in Http(ls) ==> IsHttp(l))
  {
    hide IsHttp;
    if ls != [] {
      Sorted(ls[..|ls| - 1]);
    }
  }

  lemma {:induction false} AllBound(ls: seq<Listener>)
    ensures multiset(Mail(ls)) + multiset(Http(ls)) == multiset(ls)
  {
    hide IsHttp;
    if ls != [] {
      AllBound(ls[..|ls| - 1]);
      assert ls == ls[..|ls| - 1] + [ls[|ls| - 1]];
    }
  }

  /** Every configured listener is bound once, all others before the http ones. */
  lemma HttpLast(ls: seq<Listener>)
    ensures multiset(InOrder(ls)) == multiset(ls)
    ensures forall i, j :: 0 <= i < j < |InOrder(ls)| && IsHttp(InOrder(ls)[i]) ==> IsHttp(InOrder(ls)[j])
  {
    hide IsHttp, Mail, Http;
    Sorted(ls);
    AllBound(ls);
    forall k | 0 <= k < |InOrder(ls)| ensures IsHttp(InOrder(ls)[k]) <==> k >= |Mail(ls)| {
      assert InOrder(ls)[k] in if k < |Mail(ls)| then Mail(ls) else Http(ls);
    }
  }

  // -- What a set of bound listeners should be ------------------------------

  /** One listener's sockets: one for each address, in order, wrapped as configured. */
  predicate Fits(split: Splitter, l: Listener, sockets: seq<Socket>) {
    && KindOf(l).Some?
    && Addresses(split, l.address).Some?
    && |sockets| == |Addresses(split, l.address).value|
    && (forall i :: 0 <= i < |sockets| ==>
          && sockets[i].asked == Addresses(split, l.address).value[i]
          && sockets[i].proxied == l.proxy && sockets[i].addr != "")
  }

  function Serves(l: Listener, sockets: seq<Socket>): seq<NamedServe>
    requires KindOf(l).Some?
  {
    seq(|sockets|, i requires 0 <= i < |sockets| => NamedServe(l.name, Serve(KindOf(l).value, sockets[i])))
  }

  ghost predicate AllFit(split: Splitter, ls: seq<Listener>, groups: seq<seq<Socket>>) {
    |groups| == |ls| && forall i :: 0 <= i < |ls| ==> Fits(split, ls[i], groups[i])
  }

  function Flat(groups: seq<seq<Socket>>): seq<Socket> {
    if groups == [] then [] else Flat(groups[..|groups| - 1]) + groups[|groups| - 1]
  }

  ghost function AllServes(split: Splitter, ls: seq<Listener>, groups: seq<seq<Socket>>): seq<NamedServe>
    requires AllFit(split, ls, groups)
  {
    if ls == [] then []
    else
      var n := |ls| - 1;
      AllServes(split, ls[..n], groups[..n]) + Serves(ls[n], groups[n])
  }

  /** Each listener's canonical address: that of its first socket. */
  ghost function Canonical(split: Splitter, ls: seq<Listener>, groups: seq<seq<Socket>>): seq<NamedAddr>
    requires AllFit(split, ls, groups)
  {
    if ls == [] then []
    else
      var n := |ls| - 1;
      Canonical(split, ls[..n], groups[..n]) + [NamedAddr(ls[n].name, groups[n][0].addr)]
  }

  function Ids(sockets: seq<Socket>): set<nat> {
    set s | s in sockets :: s.id
  }

  predicate DistinctIds(sockets: seq<Socket>) {
    forall i, j :: 0 <= i < j < |sockets| ==> sockets[i].id != sockets[j].id
  }

  lemma IdsAppend(a: seq<Socket>, b: seq<Socket>)
    ensures Ids(a + b) == Ids(a) + Ids(b)
  {
  }

  // -- The program ----------------------------------------------------------

  class Network {
    var open: set<nat>
    var next: nat
    // How many binds the kernel refused.
    ghost var failures: nat

    ghost predicate Valid()
      reads this
    {
      forall id :: id in open ==> id < next
    }

    /** net.Listen; the kernel reports the address it bound. */
    method Listen(addr: string) returns (r: Option<Socket>)
      requires Valid()
      modifies this
      ensures Valid() && next >= old(next)
      ensures r.None? ==> open == old(open)
      ensures failures == if r.None? then old(failures) + 1 else old(failures)
      ensures r.Some? ==> old(next) <= r.value.id < next && open == old(open) + {r.value.id}
      ensures r.Some? ==> r.value.asked == addr && !r.value.proxied && r.value.addr != ""
    {
      var ok: bool, resolved: string := *, *;
      if !ok || resolved == "" {
        failures := failures + 1;
        return None;
      }
      r := Some(Socket(next, addr, resolved, false));
      open, next := open + {next}, next + 1;
    }

    method Close(s: Socket)
      requires Valid()
      modifies this`open
      ensures Valid() && open == old(open) - {s.id}
    {
      open := open - {s.id};
    }

    method CloseAll(sockets: seq<Socket>)
      requires Valid()
      modifies this`open
      ensures Valid() && open == old(open) - Ids(sockets)
    {
      for i := 0 to |sockets|
        invariant Valid() && open == old(open) - Ids(sockets[..i])
      {
        assert sockets[..i + 1] == sockets[..i] + [sockets[i]];
        Close(sockets[i]);
      }
      assert sockets[..|sockets|] == sockets;
    }
  }

  /** Sockets opened since some point: new, distinct, and all that was added. */
  predicate Opened(open: set<nat>, next: nat, open': set<nat>, next': nat, sockets: seq<Socket>) {
    && next <= next'
    && (forall s :: s in sockets ==> next <= s.id < next')
    && DistinctIds(sockets)
    && open' == open + Ids(sockets)
  }

  lemma OpenedMore(open: set<nat>, next: nat, open1: set<nat>, next1: nat, open2: set<nat>, next2: nat,
                   a: seq<Socket>, b: seq<Socket>)
    requires Opened(open, next, open1, next1, a) && Opened(open1, next1, open2, next2, b)
    ensures Opened(open, next, open2, next2, a + b)
  {
    IdsAppend(a, b);
    forall i, j | 0 <= i < j < |a + b| ensures (a + b)[i].id != (a + b)[j].id {
      if i < |a| <= j {
        assert (a + b)[i] in a && (a + b)[j] in b;
      }
    }
  }

  /** Closing what was opened restores what was open. */
  lemma ClosedAgain(open: set<nat>, next: nat, open': set<nat>, next': nat, sockets: seq<Socket>)
    requires Opened(open, next, open', next', sockets) && forall id :: id in open ==> id < next
    ensures open' - Ids(sockets) == open
  {
  }

  datatype Bound = Bound(listeners: seq<Socket>, serves: seq<Serve>, canonical: string)

  /** boundListenerSet. */
  class BoundListenerSet {
    var listeners: seq<Socket>
    var serveFns: seq<NamedServe>
    var boundAddrs: seq<NamedAddr>

    constructor ()
      ensures listeners == [] && serveFns == [] && boundAddrs == []
    {
      listeners, serveFns, boundAddrs := [], [], [];
    }

    /** What was bound for one listener joins the set. */
    method Add(l: Listener, b: Bound)
      requires KindOf(l).Some? && b.listeners != [] && b.canonical == b.listeners[0].addr != ""
      requires b.serves ==
                 seq(|b.listeners|, i requires 0 <= i < |b.listeners| => Serve(KindOf(l).value, b.listeners[i]))
      modifies this
      ensures listeners == old(listeners) + b.listeners
      ensures serveFns == old(serveFns) + Serves(l, b.listeners)
      ensures boundAddrs == old(boundAddrs) + [NamedAddr(l.name, b.listeners[0].addr)]
    {
      for i := 0 to |b.listeners|
        invariant listeners == old(listeners) + b.listeners[..i]
        invariant serveFns == old(serveFns) + Serves(l, b.listeners)[..i]
        invariant boundAddrs == old(boundAddrs)
      {
        listeners := listeners + [b.listeners[i]];
        serveFns := serveFns + [NamedServe(l.name, b.serves[i])];
      }
      if b.canonical != "" {
        boundAddrs := boundAddrs + [NamedAddr(l.name, b.canonical)];
      }
    }
  }

  /** Nothing but a refused bind, an unknown protocol or a malformed address makes
      binding fail. */
  predicate Bindable(split: Splitter, l: Listener) {
    KindOf(l).Some? && Addresses(split, l.address).Some?
  }

  class Binder {
    const net: Network
    const split: Splitter

    constructor (net: Network, split: Splitter)
      ensures this.net == net && this.split == split
    {
      this.net, this.split := net, split;
    }

    /** One address: a socket and its serve function, or nothing left open. An unknown
        protocol is found out only once the socket is bound. */
    method BindOneAddress(l: Listener, addr: string) returns (r: Option<(Socket, Serve)>)
      requires net.Valid()
      modifies net
      ensures net.Valid() && net.next >= old(net.next) && net.failures >= old(net.failures)
      ensures r.None? ==> net.open == old(net.open) && (KindOf(l).None? || net.failures > old(net.failures))
      ensures r.Some? ==>
                && KindOf(l).Some? && r.value.1 == Serve(KindOf(l).value, r.value.0)
                && r.value.0.asked == addr && r.value.0.proxied == l.proxy && r.value.0.addr != ""
                && old(net.next) <= r.value.0.id < net.next && net.open == old(net.open) + {r.value.0.id}
    {
      var ln := net.Listen(addr);
      if ln.None? {
        return None;
      }
      var s := ln.value;
      if l.proxy && l.protocol in {"smtp", "smtp-submission", "imap", "managesieve"} {
        s := s.(proxied := true);
      }
      match l.protocol {
        case "smtp" => r := Some((s, Serve(Relay, s)));
        case "smtp-submission" => r := Some((s, Serve(Submission(l.tls == "implicit", l.plainAuth), s)));
        case "imap" => r := Some((s, Serve(Imap(l.tls == "implicit", l.plainAuth), s)));
        case "managesieve" => r := Some((s, Serve(ManageSieve(l.plainAuth), s)));
        case "http" =>
          var forwarded := false;
          if l.proxy {
            s := s.(proxied := true);
            forwarded := true;
          }
          r := Some((s, Serve(Web(forwarded), s)));
        case _ =>
          net.Close(s);
          r := None;
      }
    }

    /** One listener: a socket for each of its addresses, or nothing left open. */
    method BindOne(l: Listener) returns (r: Option<Bound>)
      requires net.Valid()
      modifies net
      ensures net.Valid() && net.next >= old(net.next) && net.failures >= old(net.failures)
      ensures r.None? ==> net.open == old(net.open) && (!Bindable(split, l) || net.failures > old(net.failures))
      ensures r.Some? ==>
                && Fits(split, l, r.value.listeners)
                && r.value.canonical == r.value.listeners[0].addr
                && r.value.serves == seq(|r.value.listeners|, i requires 0 <= i < |r.value.listeners| =>
                                         Serve(KindOf(l).value, r.value.listeners[i]))
                && Opened(old(net.open), old(net.next), net.open, net.next, r.value.listeners)
    {
      hide KindOf, Addresses;
      var addrs := Addresses(split, l.address);
      if addrs.None? {
        return None;
      }
      var listeners: seq<Socket>, serves: seq<Serve>, canonical := [], [], "";
      for i := 0 to |addrs.value|
        invariant net.Valid() && |listeners| == |serves| == i && (i > 0 ==> KindOf(l).Some?)
        invariant net.failures >= old(net.failures)
        invariant canonical == if i == 0 then "" else listeners[0].addr
        invariant forall k :: 0 <= k < i ==>
                    listeners[k].asked == addrs.value[k] && listeners[k].proxied == l.proxy && listeners[k].addr != ""
        invariant forall k :: 0 <= k < i ==> serves[k] == Serve(KindOf(l).value, listeners[k])
        invariant Opened(old(net.open), old(net.next), net.open, net.next, listeners)
      {
        var one := BindOneAddress(l, addrs.value[i]);
        if one.None? {
          net.CloseAll(listeners);
          return None;
        }
        listeners := listeners + [one.value.0];
        serves := serves + [one.value.1];
        if canonical == "" {
          canonical := one.value.0.addr;
        }
      }
      r := Some(Bound(listeners, serves, canonical));
    }

    /** The set holds what was bound for these listeners, in their order: the sockets, a
        serve function for each, and one address for each listener. */
    ghost predicate Holds(bound: BoundListenerSet, ls: seq<Listener>, groups: seq<seq<Socket>>)
      reads bound
    {
      && AllFit(split, ls, groups)
      && bound.listeners == Flat(groups)
      && bound.serveFns == AllServes(split, ls, groups)
      && bound.boundAddrs == Canonical(split, ls, groups)
    }

    /** One more listener into the set; failing that, everything in the set is closed. */
    method BindInto(bound: BoundListenerSet, l: Listener, ghost ls: seq<Listener>, ghost groups: seq<seq<Socket>>,
                    ghost open0: set<nat>, ghost next0: nat)
      returns (ok: bool, ghost groups': seq<seq<Socket>>)
      requires net.Valid() && Holds(bound, ls, groups)
      requires Opened(open0, next0, net.open, net.next, bound.listeners) && forall id :: id in open0 ==> id < next0
      modifies net, bound
      ensures net.Valid() && net.failures >= old(net.failures)
      ensures ok ==> Holds(bound, ls + [l], groups') && Opened(open0, next0, net.open, net.next, bound.listeners)
      ensures !ok ==> net.open == open0 && (!Bindable(split, l) || net.failures > old(net.failures))
    {
      hide Opened, Fits, Serves, Bindable;
      groups' := groups;
      ghost var open1, next1 := net.open, net.next;
      var one := BindOne(l);
      if one.None? {
        ClosedAgain(open0, next0, open1, next1, bound.listeners);
        net.CloseAll(bound.listeners);
        return false, groups;
      }
      var b := one.value;
      FitsSome(split, l, b.listeners);
      OpenedMore(open0, next0, open1, next1, net.open, net.next, bound.listeners, b.listeners);
      bound.Add(l, b);
      groups' := groups + [b.listeners];
      OneGroupMore(split, ls, groups, l, b.listeners);
      ok := true;
    }

    /** The listeners other than http, in order; the http ones are put aside. */
    method BindMail(bound: BoundListenerSet, cfg: seq<Listener>)
      returns (ok: bool, adminBinds: seq<Listener>, ghost groups: seq<seq<Socket>>)
      requires net.Valid() && bound.listeners == [] && bound.serveFns == [] && bound.boundAddrs == []
      modifies net, bound
      ensures net.Valid() && net.failures >= old(net.failures)
      ensures ok ==> adminBinds == Http(cfg) && Holds(bound, Mail(cfg), groups)
      ensures ok ==> Opened(old(net.open), old(net.next), net.open, net.next, bound.listeners)
      ensures !ok ==> net.open == old(net.open)
      ensures !ok ==> net.failures > old(net.failures) || exists l :: l in cfg && !Bindable(split, l)
    {
      hide Opened, AllFit, IsHttp, KindOf, Bindable;
      adminBinds, groups, ok := [], [], true;
      NothingYet(split, net.open, net.next);
      for i := 0 to |cfg|
        invariant net.Valid() && ok && adminBinds == Http(cfg[..i]) && net.failures >= old(net.failures)
        invariant Holds(bound, Mail(cfg[..i]), groups)
        invariant Opened(old(net.open), old(net.next), net.open, net.next, bound.listeners)
      {
        var l := cfg[i];
        assert cfg[..i + 1][..i] == cfg[..i];
        if IsHttp(l) {
          adminBinds := adminBinds + [l];
        } else {
          ok, groups := BindInto(bound, l, Mail(cfg[..i]), groups, old(net.open), old(net.next));
          if !ok {
            return false, [], groups;
          }
        }
      }
      assert cfg[..|cfg|] == cfg;
    }

    /** The http listeners, after the others. */
    method BindHttp(bound: BoundListenerSet, adminBinds: seq<Listener>, ghost ls: seq<Listener>,
                    ghost groups0: seq<seq<Socket>>,
                    ghost open0: set<nat>, ghost next0: nat)
      returns (ok: bool, ghost groups: seq<seq<Socket>>)
      requires net.Valid() && Holds(bound, ls, groups0)
      requires Opened(open0, next0, net.open, net.next, bound.listeners) && forall id :: id in open0 ==> id < next0
      modifies net, bound
      ensures net.Valid()
      ensures ok ==> Holds(bound, ls + adminBinds, groups) && Opened(open0, next0, net.open, net.next, bound.listeners)
      ensures !ok ==> net.open == open0
      ensures !ok ==> net.failures > old(net.failures) || exists l :: l in adminBinds && !Bindable(split, l)
    {
      hide Opened, Binder.Holds, KindOf, Bindable;
      groups, ok := groups0, true;
      assert ls + adminBinds[..0] == ls;
      for i := 0 to |adminBinds|
        invariant net.Valid() && ok && Holds(bound, ls + adminBinds[..i], groups) && net.failures >= old(net.failures)
        invariant Opened(open0, next0, net.open, net.next, bound.listeners)
      {
        assert ls + adminBinds[..i + 1] == ls + adminBinds[..i] + [adminBinds[i]];
        ok, groups := BindInto(bound, adminBinds[i], ls + adminBinds[..i], groups, open0, next0);
        if !ok {
          return;
        }
      }
      assert adminBinds[..|adminBinds|] == adminBinds;
    }

    /** bindListeners: every opened socket is in the set, paired with its serve function,
        http listeners last and one address for each listener; or nothing is left open. */
    method BindListeners(cfg: seq<Listener>) returns (r: Option<BoundListenerSet>, ghost groups: seq<seq<Socket>>)
      requires net.Valid()
      modifies net
      ensures net.Valid()
      ensures r.None? ==> net.open == old(net.open)
      ensures r.None? ==> net.failures > old(net.failures) || exists l :: l in cfg && !Bindable(split, l)
      ensures r.Some? ==> Holds(r.value, InOrder(cfg), groups)
      ensures r.Some? ==> Opened(old(net.open), old(net.next), net.open, net.next, r.value.listeners)
    {
      hide Opened, AllFit, Binder.Holds, Mail, Http, Bindable;
      var bound := new BoundListenerSet();
      var ok, adminBinds;
      ok, adminBinds, groups := BindMail(bound, cfg);
      if !ok {
        return None, groups;
      }
      AllBound(cfg);
      ok, groups := BindHttp(bound, adminBinds, Mail(cfg), groups, old(net.open), old(net.next));
      assert forall l :: l in adminBinds ==> l in multiset(cfg);
      r := if ok then Some(bound) else None;
    }
  }

  lemma NothingYet(split: Splitter, open: set<nat>, next: nat)
    ensures Opened(open, next, open, next, [])
    ensures AllFit(split, [], [])
  {
  }

  lemma FitsSome(split: Splitter, l: Listener, sockets: seq<Socket>)
    requires Fits(split, l, sockets)
    ensures sockets != [] && sockets[0].addr != "" && KindOf(l).Some?
  {
  }

  lemma OneGroupMore(split: Splitter, ls: seq<Listener>, groups: seq<seq<Socket>>, l: Listener, g: seq<Socket>)
    requires AllFit(split, ls, groups) && Fits(split, l, g)
    ensures AllFit(split, ls + [l], groups + [g])
    ensures Flat(groups + [g]) == Flat(groups) + g
    ensures AllServes(split, ls + [l], groups + [g]) == AllServes(split, ls, groups) + Serves(l, g)
    ensures Canonical(split, ls + [l], groups + [g]) == Canonical(split, ls, groups) + [NamedAddr(l.name, g[0].addr)]
  {
    var n := |ls|;
    assert (ls + [l])[..n] == ls && (groups + [g])[..n] == groups;
  }

  // -- What the set amounts to ----------------------------------------------

  /** Each socket is paired with a serve function that serves on it. */
  lemma {:induction false} Paired(split: Splitter, ls: seq<Listener>, groups: seq<seq<Socket>>)
    requires AllFit(split, ls, groups)
    ensures |AllServes(split, ls, groups)| == |Flat(groups)|
    ensures forall i :: 0 <= i < |Flat(groups)| ==> AllServes(split, ls, groups)[i].fn.on == Flat(groups)[i]
  {
    if ls != [] {
      var n := |ls| - 1;
      Paired(split, ls[..n], groups[..n]);
    }
  }

  /** And every socket of a listener is served under the listener's name, as its protocol
      asks. */
  lemma {:induction false} ServedUnderName(split: Splitter, ls: seq<Listener>, groups: seq<seq<Socket>>, j: nat, q: nat)
    requires AllFit(split, ls, groups) && j < |ls| && q < |groups[j]|
    ensures KindOf(ls[j]).Some?
    ensures NamedServe(ls[j].name, Serve(KindOf(ls[j]).value, groups[j][q])) in AllServes(split, ls, groups)
  {
    hide Addresses;
    var n := |ls| - 1;
    assert Fits(split, ls[j], groups[j]);
    hide KindOf;
    if j < n {
      ServedUnderName(split, ls[..n], groups[..n], j, q);
    } else {
      assert Serves(ls[n], groups[n])[q] == NamedServe(ls[j].name, Serve(KindOf(ls[j]).value, groups[j][q]));
    }
  }

  /** There is one canonical address for each listener, that of its first socket. */
  lemma {:induction false} OneAddressEach(split: Splitter, ls: seq<Listener>, groups: seq<seq<Socket>>)
    requires AllFit(split, ls, groups)
    ensures |Canonical(split, ls, groups)| == |ls|
    ensures forall i :: 0 <= i < |ls| ==> Canonical(split, ls, groups)[i] == NamedAddr(ls[i].name, groups[i][0].addr)
  {
    if ls != [] {
      var n := |ls| - 1;
      OneAddressEach(split, ls[..n], groups[..n]);
    }
  }
}
