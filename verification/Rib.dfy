/** The BGP originator: the paths the BGP server originates, and the index from prefix to path. */
module Rib {
  import opened Config
  import opened Policy
  import opened Community

  type Uuid = nat

  /** An originated path. `attrs` are the attributes it was asked for; the rest is what goes on the wire. */
  datatype Path = Path(prefix: string, attrs: Attrs, asPath: seq<nat>, communities: seq<nat>)

  /**
    The server's answer to adding a path; a refused call, an empty response and a response with an
    error all change nothing.
   */
  datatype Added = Added(id: Uuid) | CallFails | EmptyResponse | ResponseError

  /** What a call meets outside: whether prefix and next hop are usable, and the server's answers. */
  datatype Weather = Weather(usable: bool, deletes: bool, adds: Added)

  /** The AS_PATH of a route: only an eBGP-only router prepends, and never a negative number of times. */
  function Prepends(asn: nat, ibgp: bool, prepend: int): seq<nat> {
    if prepend > 0 && !ibgp then seq(prepend, _ => asn) else []
  }

  function PathFor(asn: nat, ibgp: bool, prefix: string, attrs: Attrs): Option<Path> {
    var comms := ParseAll(attrs.communities);
    if comms.None? then None else Some(Path(prefix, attrs, Prepends(asn, ibgp, attrs.prepend), comms.value))
  }

  /** What peers are told: the local ASN once per prepend, unless there are iBGP peers, and the communities. */
  ghost predicate Spells(path: Path, asn: nat, ibgp: bool, prefix: string, attrs: Attrs) {
    && path.prefix == prefix && path.attrs == attrs
    && |path.asPath| == (if ibgp || attrs.prepend < 0 then 0 else attrs.prepend)
    && (forall i :: 0 <= i < |path.asPath| ==> path.asPath[i] == asn)
    && |path.communities| == |attrs.communities|
    && (forall i :: 0 <= i < |attrs.communities| ==>
         ParseCommunity(attrs.communities[i]) == Some(path.communities[i]))
  }

  lemma {:induction false} PathSpells(asn: nat, ibgp: bool, prefix: string, attrs: Attrs)
    ensures PathFor(asn, ibgp, prefix, attrs).Some? ==>
      Spells(PathFor(asn, ibgp, prefix, attrs).value, asn, ibgp, prefix, attrs)
    ensures PathFor(asn, ibgp, prefix, attrs).Some? <==>
      forall i :: 0 <= i < |attrs.communities| ==> ParseCommunity(attrs.communities[i]).Some?
  {
    hide ParseAll, ParseCommunity;
    ParseAllIs(attrs.communities);
  }

  /** `buildASPath`. */
  method BuildAsPath(asn: nat, prepend: int) returns (path: array<nat>)
    ensures fresh(path) && path.Length == (if prepend > 0 then prepend else 0)
    ensures forall i :: 0 <= i < path.Length ==> path[i] == asn
  {
    path := new nat[if prepend > 0 then prepend else 0];
    for i := 0 to path.Length
      invariant forall k :: 0 <= k < i ==> path[k] == asn
    {
      path[i] := asn;
    }
  }

  /**
    The originated paths are exactly the image of the index, each under its own prefix; hence at
    most one per prefix.
   */
  ghost predicate Exact(asn: nat, ibgp: bool, server: map<Uuid, Path>, installed: map<string, Uuid>) {
    && (forall p :: p in installed ==> installed[p] in server && server[installed[p]].prefix == p)
    && (forall id :: id in server ==> server[id].prefix in installed && installed[server[id].prefix] == id)
    && (forall id :: id in server ==> Some(server[id]) == PathFor(asn, ibgp, server[id].prefix, server[id].attrs))
  }

  ghost function RoutesOf(asn: nat, ibgp: bool, server: map<Uuid, Path>, installed: map<string, Uuid>)
    : map<string, Attrs>
    requires Exact(asn, ibgp, server, installed)
  {
    map p | p in installed :: server[installed[p]].attrs
  }

  /** Deleting the path of a prefix, and forgetting it. */
  lemma {:induction false} Deleted(asn: nat, ibgp: bool, server: map<Uuid, Path>, installed: map<string, Uuid>,
                                   prefix: string)
    requires Exact(asn, ibgp, server, installed) && prefix in installed
    ensures var s', i' := server - {installed[prefix]}, installed - {prefix};
      && Exact(asn, ibgp, s', i') && RoutesOf(asn, ibgp, s', i') == RoutesOf(asn, ibgp, server, installed) - {prefix}
      && forall id :: id in s' ==> s'[id].prefix != prefix
  {
    hide PathFor;
  }

  /** Adding a path for a prefix that has none, under a new UUID. */
  lemma {:induction false} Put(asn: nat, ibgp: bool, server: map<Uuid, Path>, installed: map<string, Uuid>, id: Uuid,
                               path: Path)
    requires Exact(asn, ibgp, server, installed) && path.prefix !in installed && id !in server
    requires Some(path) == PathFor(asn, ibgp, path.prefix, path.attrs)
    ensures var s', i' := server[id := path], installed[path.prefix := id];
      Exact(asn, ibgp, s', i') && RoutesOf(asn, ibgp, s', i') ==
        RoutesOf(asn, ibgp, server, installed)[path.prefix := path.attrs]
  {
    hide PathFor;
  }

  class Originator {
    const asn: nat
    const peers: seq<nat>
    /** The paths this node originates, as the server holds them. */
    var server: map<Uuid, Path>
    var installed: map<string, Uuid>

    ghost predicate Valid()
      reads this
    {
      Exact(asn, asn in peers, server, installed)
    }

    /** The route at every prefix. */
    ghost function Routes(): map<string, Attrs>
      requires Valid()
      reads this
    {
      RoutesOf(asn, asn in peers, server, installed)
    }

    constructor (asn: nat, peers: seq<nat>)
      ensures Valid() && Routes() == map[]
      ensures this.asn == asn && this.peers == peers
    {
      this.asn, this.peers := asn, peers;
      server, installed := map[], map[];
    }

    /** `hasIBGPPeer`. */
    method HasIbgpPeer() returns (b: bool)
      ensures b <==> asn in peers
    {
      b := false;
      for i := 0 to |peers|
        invariant !b && forall k :: 0 <= k < i ==> peers[k] != asn
      {
        if peers[i] == asn {
          return true;
        }
      }
    }

    /** `buildPath`. */
    method BuildPath(prefix: string, attrs: Attrs, usable: bool) returns (path: Option<Path>)
      ensures path == if usable then PathFor(asn, asn in peers, prefix, attrs) else None
      ensures path.Some? ==> Spells(path.value, asn, asn in peers, prefix, attrs)
      ensures path.Some? <==>
        usable && forall i :: 0 <= i < |attrs.communities| ==> ParseCommunity(attrs.communities[i]).Some?
    {
      PathSpells(asn, asn in peers, prefix, attrs);
      if !usable {
        return None;
      }
      var ibgp := HasIbgpPeer();
      var asPath: seq<nat> := [];
      if attrs.prepend > 0 && !ibgp {
        var p := BuildAsPath(asn, attrs.prepend);
        asPath := p[..];
        assert asPath == Prepends(asn, ibgp, attrs.prepend);
      }
      var comms := ParseCommunities(attrs.communities);
      path := if comms.None? then None else Some(Path(prefix, attrs, asPath, comms.value));
    }

    /**
      `upsertVIP`. A success leaves exactly the requested path at the prefix; a failure leaves the
      old path or none, and the index always tells which.
     */
    method Upsert(prefix: string, attrs: Attrs, w: Weather) returns (ok: bool, b: Bgp)
      requires Valid() && (w.adds.Added? ==> w.adds.id !in server)
      modifies this`server, this`installed
      ensures Valid() && ok == (b == Done)
      ensures RouteIn(Routes(), prefix) == RouteAfter(RouteIn(old(Routes()), prefix), Originate(prefix, attrs), b)
      ensures forall p :: p != prefix ==> RouteIn(Routes(), p) == RouteIn(old(Routes()), p)
      ensures forall id :: id in server ==> id in old(server) || w.adds == Added(id)
      ensures ok ==>
        prefix in installed && installed[prefix] in server
        && Some(server[installed[prefix]]) == PathFor(asn, asn in peers, prefix, attrs)
      ensures ok <==>
        w.usable && w.adds.Added? && ParseAll(attrs.communities).Some? && (prefix in old(installed) ==> w.deletes)
    {
      hide PathFor, ParseAll, Exact;
      var path := BuildPath(prefix, attrs, w.usable);
      assert path.Some? <==>
        w.usable && ParseAll(attrs.communities).Some? by { PathBuilds(asn, asn in peers, prefix, attrs); }
      if path.None? {
        return false, Kept;
      }
      PathIs(asn, asn in peers, prefix, attrs);
      b := Kept;
      if prefix in installed {
        if !w.deletes {
          return false, Kept;
        }
        Deleted(asn, asn in peers, server, installed, prefix);
        server := server - {installed[prefix]};
        installed := installed - {prefix};
        b := Dropped;
      }
      if !w.adds.Added? {
        return false, b;
      }
      Put(asn, asn in peers, server, installed, w.adds.id, path.value);
      server := server[w.adds.id := path.value];
      installed := installed[prefix := w.adds.id];
      return true, Done;
    }

    /**
      `WithdrawVIP`: by UUID when one is known, else by prefix. A success leaves no path at the
      prefix, a failure changes nothing.
     */
    method Withdraw(prefix: string, w: Weather) returns (ok: bool)
      requires Valid()
      modifies this`server, this`installed
      ensures Valid()
      ensures ok <==> w.usable && w.deletes
      ensures RouteIn(Routes(), prefix) ==
        RouteAfter(RouteIn(old(Routes()), prefix), Call.Withdraw(prefix), if ok then Done else Kept)
      ensures forall p :: p != prefix ==> RouteIn(Routes(), p) == RouteIn(old(Routes()), p)
      ensures server.Keys <= old(server).Keys
      ensures ok ==> forall id :: id in server ==> server[id].prefix != prefix
    {
      hide PathFor, ParseAll;
      var path := BuildPath(prefix, Attrs(0, []), w.usable);
      assert path.Some? <==> w.usable by { PathBuilds(asn, asn in peers, prefix, Attrs(0, [])); NoCommunities(); }
      if path.None? || !w.deletes {
        return false;
      }
      if prefix in installed {
        server := server - {installed[prefix]};
      } else {
        server := map id | id in server && server[id].prefix != prefix :: server[id];
      }
      installed := installed - {prefix};
      return true;
    }

    /**
      Any sequence of calls with any failures: the routes follow the specification call by call, and
      the index stays exact.
     */
    method Perform(calls: seq<Call>, weathers: seq<Weather>) returns (outcomes: seq<Bgp>)
      requires Valid() && |weathers| == |calls|
      requires forall i :: 0 <= i < |calls| && weathers[i].adds.Added? ==> weathers[i].adds.id !in server
      requires forall i, j :: 0 <= i < j < |calls| && weathers[i].adds.Added? && weathers[j].adds.Added? ==>
        weathers[i].adds.id != weathers[j].adds.id
      modifies this`server, this`installed
      ensures Valid() && |outcomes| == |calls|
      ensures forall p :: RouteIn(Routes(), p) == Replay(RouteIn(old(Routes()), p), p, calls, outcomes)
    {
      hide Exact, PathFor, ParseAll, RoutesOf, RouteIn, RouteAfter, Replay;
      outcomes := [];
      NothingReplayed();
      for i := 0 to |calls|
        invariant Valid() && |outcomes| == i
        invariant forall j :: i <= j < |calls| && weathers[j].adds.Added? ==> weathers[j].adds.id !in server
        invariant forall p :: RouteIn(Routes(), p) == Replay(RouteIn(old(Routes()), p), p, calls[..i], outcomes)
      {
        ghost var done := outcomes;
        if calls[i].Withdraw? {
          var ok := Withdraw(calls[i].prefix, weathers[i]);
          outcomes := outcomes + [if ok then Done else Kept];
        } else {
          var ok, b := Upsert(calls[i].prefix, calls[i].attrs, weathers[i]);
          outcomes := outcomes + [b];
        }
        forall p
          ensures RouteIn(Routes(), p) == Replay(RouteIn(old(Routes()), p), p, calls[..i + 1], outcomes)
        {
          ReplayOneMore(RouteIn(old(Routes()), p), p, calls[..i], done, calls[i], outcomes[i]);
          assert calls[..i + 1] == calls[..i] + [calls[i]];
        }
      }
      assert calls[..|calls|] == calls;
    }
  }

  function RouteIn(routes: map<string, Attrs>, p: string): Option<Attrs> {
    if p in routes then Some(routes[p]) else None
  }

  /** The route at one prefix after a sequence of calls and outcomes. */
  function Replay(route: Option<Attrs>, p: string, calls: seq<Call>, outcomes: seq<Bgp>): Option<Attrs>
    requires |outcomes| == |calls|
  {
    if calls == [] then route else
    var k := |calls| - 1;
    var before := Replay(route, p, calls[..k], outcomes[..k]);
    if calls[k].prefix == p then RouteAfter(before, calls[k], outcomes[k]) else before
  }

  lemma NothingReplayed()
    ensures forall route, p :: Replay(route, p, [], []) == route
  {
  }

  lemma ReplayOneMore(route: Option<Attrs>, p: string, calls: seq<Call>, outcomes: seq<Bgp>, call: Call, b: Bgp)
    requires |outcomes| == |calls|
    ensures Replay(route, p, calls + [call], outcomes + [b]) ==
      (var before := Replay(route, p, calls, outcomes);
        if call.prefix == p then RouteAfter(before, call, b) else before)
  {
    assert (calls + [call])[..|calls|] == calls && (outcomes + [b])[..|outcomes|] == outcomes;
  }

  lemma PathBuilds(asn: nat, ibgp: bool, prefix: string, attrs: Attrs)
    ensures PathFor(asn, ibgp, prefix, attrs).Some? <==> ParseAll(attrs.communities).Some?
  {
  }

  lemma PathIs(asn: nat, ibgp: bool, prefix: string, attrs: Attrs)
    ensures var p := PathFor(asn, ibgp, prefix, attrs); p.Some? ==> p.value.prefix == prefix && p.value.attrs == attrs
  {
  }

  lemma NoCommunities()
    ensures ParseAll([]).Some?
  {
  }
}
