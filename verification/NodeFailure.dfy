/** Losing a worker node. The failure event built for each service lists every sandbox on the node,
    whichever service it belongs to and even if it is already being evicted; handling the events
    removes from each service exactly its own endpoints on that node. */
module NodeFailure {
  import opened Options
  import opened Endpoints
  import opened Scaling

  datatype Svc = Svc(scale: int, endpoints: seq<Endpoint>)

  /** `nodes` maps each registered worker to the endpoints its structure holds. An endpoint under
      eviction is in there and in no service. */
  datatype Plane = Plane(services: map<string, Svc>, nodes: map<string, set<Endpoint>>)

  datatype Failure = Failure(service: string, ids: seq<string>)

  predicate UniqueIds(endpoints: seq<Endpoint>) {
    Distinct(endpoints) && forall e, f :: e in endpoints && f in endpoints && e.sandboxID == f.sandboxID ==> e == f
  }

  ghost predicate AllDistinct(services: map<string, Svc>) {
    forall n :: n in services ==> Distinct(services[n].endpoints)
  }

  ghost predicate KnownToNode(p: Plane) {
    forall n, e :: n in p.services && e in p.services[n].endpoints ==> e.node in p.nodes && e in p.nodes[e.node]
  }

  ghost predicate AtHome(nodes: map<string, set<Endpoint>>) {
    forall m, e :: m in nodes && e in nodes[m] ==> e.node == m
  }

  ghost predicate IdsDiffer(nodes: map<string, set<Endpoint>>) {
    forall m, n, e, f | m in nodes && n in nodes && e in nodes[m] && f in nodes[n] ::
      e.sandboxID == f.sandboxID ==> e == f
  }

  ghost predicate OneOwner(services: map<string, Svc>) {
    forall a, b, e | a in services && b in services && e in services[a].endpoints && e in services[b].endpoints ::
      a == b
  }

  /** Every listed endpoint is known to its node and to no other; sandbox ids are unique across the
      cluster; no two services share an endpoint. */
  ghost predicate Sound(p: Plane) {
    && AllDistinct(p.services) && KnownToNode(p) && AtHome(p.nodes) && IdsDiffer(p.nodes) && OneOwner(p.services)
  }

  ghost predicate IdsUnique(p: Plane) {
    forall n :: n in p.services ==> UniqueIds(p.services[n].endpoints)
  }

  lemma SoundIds(p: Plane)
    requires Sound(p)
    ensures IdsUnique(p)
  {
  }

  function Ids(s: seq<string>): set<string> {
    set id | id in s
  }

  function IdsOn(p: Plane, node: string): set<string> {
    if node in p.nodes then set e | e in p.nodes[node] :: e.sandboxID else {}
  }

  function Drop(svc: Svc, gone: set<Endpoint>): Svc {
    Svc(svc.scale - |gone|, Exclude(svc.endpoints, gone))
  }

  function Forget(nodes: map<string, set<Endpoint>>, gone: set<Endpoint>): map<string, set<Endpoint>> {
    map m | m in nodes :: nodes[m] - gone
  }

  /** One failure report; reports for unknown services are ignored. */
  function AfterFailure(p: Plane, f: Failure): Plane {
    if f.service !in p.services then p
    else
      var gone := Failed(p.services[f.service].endpoints, Ids(f.ids));
      Plane(p.services[f.service := Drop(p.services[f.service], gone)], Forget(p.nodes, gone))
  }

  function AfterFailures(p: Plane, fs: seq<Failure>): Plane
    decreases |fs|
  {
    if fs == [] then p else AfterFailure(AfterFailures(p, fs[..|fs| - 1]), fs[|fs| - 1])
  }

  /** What the failure of a node should leave of every service. */
  function WithoutNode(p: Plane, node: string): map<string, Svc> {
    map n | n in p.services :: Left(p, n, node)
  }

  function Left(p: Plane, n: string, node: string): Svc
    requires n in p.services
  {
    Rest(p.services[n], node)
  }

  /** A service without its endpoints on the node. */
  function Rest(svc: Svc, node: string): Svc {
    var gone := OnNode(svc.endpoints, node);
    Svc(svc.scale - |gone|, Exclude(svc.endpoints, gone))
  }

  /** The others stay, in order, and the scale drops by the number of those that go. */
  lemma RestExactly(svc: Svc, node: string)
    requires Distinct(svc.endpoints)
    ensures var rest := Rest(svc, node);
      && (forall e :: e in rest.endpoints <==> e in svc.endpoints && e.node != node)
      && Distinct(rest.endpoints) && rest.scale - |rest.endpoints| == svc.scale - |svc.endpoints|
  {
    ExcludeMembers(svc.endpoints, OnNode(svc.endpoints, node));
    ExcludeCount(svc.endpoints, OnNode(svc.endpoints, node));
  }

  /** The events the control plane builds: nothing for an empty or unknown node, else one per
      service, each with all ids on the node. */
  ghost predicate EventsFor(p: Plane, node: string, events: seq<Failure>) {
    && (forall i :: 0 <= i < |events| ==> events[i].service in p.services && Ids(events[i].ids) == IdsOn(p, node))
    && (forall i, j :: 0 <= i < j < |events| ==> events[i].service != events[j].service)
    && (IdsOn(p, node) == {} ==> events == [])
    && (IdsOn(p, node) != {} ==> forall n :: n in p.services ==> Covered(events, n))
  }

  ghost predicate Covered(events: seq<Failure>, n: string) {
    exists i :: 0 <= i < |events| && events[i].service == n
  }

  lemma OwnEndpointsOnly(p: Plane, n: string, node: string)
    requires Sound(p) && n in p.services
    ensures Failed(p.services[n].endpoints, IdsOn(p, node)) == OnNode(p.services[n].endpoints, node)
  {
  }

  /** After any part of the events, exactly the services they name have lost their endpoints. */
  lemma {:induction false} PartlyHandled(p: Plane, node: string, events: seq<Failure>, k: nat)
    requires Sound(p) && EventsFor(p, node, events) && k <= |events|
    ensures var q := AfterFailures(p, events[..k]);
      && q.services.Keys == p.services.Keys
      && (forall n :: n in p.services ==> HandledAt(p, node, events[..k], q.services[n], n))
  {
    if k == 0 {
      assert events[..0] == [];
    } else {
      PartlyHandled(p, node, events, k - 1);
      assert events[..k][..k - 1] == events[..k - 1];
      assert events[..k][k - 1] == events[k - 1];
      var q := AfterFailures(p, events[..k - 1]);
      var q' := AfterFailure(q, events[k - 1]);
      assert AfterFailures(p, events[..k]) == q';
      assert q'.services.Keys == p.services.Keys;
      forall n | n in p.services ensures HandledAt(p, node, events[..k], q'.services[n], n) {
        OneMoreHandled(p, node, events, k, q, n);
      }
    }
  }

  ghost predicate HandledAt(p: Plane, node: string, events: seq<Failure>, now: Svc, n: string)
    requires n in p.services
  {
    now == if Covered(events, n) then Left(p, n, node) else p.services[n]
  }

  lemma OneMoreHandled(p: Plane, node: string, events: seq<Failure>, k: nat, q: Plane, n: string)
    requires Sound(p) && EventsFor(p, node, events) && 0 < k <= |events| && n in p.services
    requires q.services.Keys == p.services.Keys && HandledAt(p, node, events[..k - 1], q.services[n], n)
    ensures n in AfterFailure(q, events[k - 1]).services
    ensures HandledAt(p, node, events[..k], AfterFailure(q, events[k - 1]).services[n], n)
  {
    CoveredMore(events, k, n);
    if events[k - 1].service == n {
      NotYetCovered(events, k, n);
      OwnEndpointsOnly(p, n, node);
    }
  }

  lemma NotYetCovered(events: seq<Failure>, k: nat, n: string)
    requires 0 < k <= |events| && events[k - 1].service == n
    requires forall i, j :: 0 <= i < j < |events| ==> events[i].service != events[j].service
    ensures !Covered(events[..k - 1], n)
  {
  }

  lemma CoveredMore(events: seq<Failure>, k: nat, n: string)
    requires 0 < k <= |events|
    ensures Covered(events[..k], n) <==> Covered(events[..k - 1], n) || events[k - 1].service == n
  {
  }

  lemma EmptyNode(p: Plane, n: string, node: string)
    requires Sound(p) && n in p.services && IdsOn(p, node) == {}
    ensures Left(p, n, node) == p.services[n]
  {
    OwnEndpointsOnly(p, n, node);
    assert Failed(p.services[n].endpoints, {}) == {};
    ExcludeNone(p.services[n].endpoints, {});
  }

  lemma ServiceHandled(p: Plane, node: string, events: seq<Failure>, n: string)
    requires Sound(p) && EventsFor(p, node, events) && n in p.services
    ensures var q := AfterFailures(p, events);
      q.services.Keys == p.services.Keys && q.services[n] == Left(p, n, node)
  {
    PartlyHandled(p, node, events, |events|);
    assert events[..|events|] == events;
    if !Covered(events, n) {
      EmptyNode(p, n, node);
    }
  }

  lemma {:induction false} KeysKept(p: Plane, fs: seq<Failure>)
    ensures AfterFailures(p, fs).services.Keys == p.services.Keys
    decreases |fs|
  {
    if fs != [] {
      KeysKept(p, fs[..|fs| - 1]);
    }
  }

  lemma SameServices(p: Plane, node: string, services: map<string, Svc>)
    requires services.Keys == p.services.Keys
    requires forall n :: n in p.services ==> services[n] == Left(p, n, node)
    ensures services == WithoutNode(p, node)
  {
  }

  /** Node-failure exactness: every service loses exactly its endpoints on the node, in order, and
      its scale drops by exactly their number. */
  lemma NodeFailureIsExact(p: Plane, node: string, events: seq<Failure>)
    requires Sound(p) && EventsFor(p, node, events)
    ensures AfterFailures(p, events).services == WithoutNode(p, node)
  {
    var services := AfterFailures(p, events).services;
    KeysKept(p, events);
    forall n | n in p.services ensures services[n] == Left(p, n, node) {
      ServiceHandled(p, node, events, n);
    }
    SameServices(p, node, services);
  }

  // --- The node's own structure -------------------------------------------------------------------------

  /** The endpoints of the node that some service lists; the others are under eviction. */
  function ListedOn(p: Plane, node: string): set<Endpoint> {
    set n, e | n in p.services && e in p.services[n].endpoints && e.node == node :: e
  }

  function NodesWithout(p: Plane, node: string, gone: set<Endpoint>): map<string, set<Endpoint>> {
    map m | m in p.nodes :: if m == node then p.nodes[m] - gone else p.nodes[m]
  }

  /** What the services named so far have listed on the node. */
  function GoneFrom(p: Plane, node: string, events: seq<Failure>): set<Endpoint>
    requires forall i :: 0 <= i < |events| ==> events[i].service in p.services
    decreases |events|
  {
    if events == [] then {}
    else
      var last := events[|events| - 1].service;
      GoneFrom(p, node, events[..|events| - 1]) + OnNode(p.services[last].endpoints, node)
  }

  lemma {:induction false} GoneCovered(p: Plane, node: string, events: seq<Failure>)
    requires forall i :: 0 <= i < |events| ==> events[i].service in p.services
    ensures forall e :: e in GoneFrom(p, node, events) <==>
      exists i :: 0 <= i < |events| && e in OnNode(p.services[events[i].service].endpoints, node)
    decreases |events|
  {
    if events != [] {
      var n := |events| - 1;
      GoneCovered(p, node, events[..n]);
      forall e | e in GoneFrom(p, node, events)
        ensures exists i :: 0 <= i < |events| && e in OnNode(p.services[events[i].service].endpoints, node)
      {
        if e in GoneFrom(p, node, events[..n]) {
          var i :| 0 <= i < n && e in OnNode(p.services[events[..n][i].service].endpoints, node);
          assert e in OnNode(p.services[events[i].service].endpoints, node);
        }
      }
      forall i, e | 0 <= i < |events| && e in OnNode(p.services[events[i].service].endpoints, node)
        ensures e in GoneFrom(p, node, events)
      {
        if i < n {
          assert events[..n][i] == events[i];
        }
      }
    }
  }

  lemma ForgetOnNode(p: Plane, node: string, gone: set<Endpoint>, more: set<Endpoint>)
    requires AtHome(p.nodes) && forall e :: e in more ==> e.node == node
    ensures Forget(NodesWithout(p, node, gone), more) == NodesWithout(p, node, gone + more)
  {
    var l, r := Forget(NodesWithout(p, node, gone), more), NodesWithout(p, node, gone + more);
    forall m | m in p.nodes ensures l[m] == r[m] {
      if m == node {
        assert p.nodes[m] - gone - more == p.nodes[m] - (gone + more);
      } else {
        assert forall e :: e in p.nodes[m] ==> e.node == m;
        assert p.nodes[m] - more == p.nodes[m];
      }
    }
    assert l.Keys == r.Keys == p.nodes.Keys;
  }

  lemma {:induction false} NodesPartly(p: Plane, node: string, events: seq<Failure>, k: nat)
    requires Sound(p) && EventsFor(p, node, events) && k <= |events|
    ensures AfterFailures(p, events[..k]).nodes == NodesWithout(p, node, GoneFrom(p, node, events[..k]))
  {
    if k == 0 {
      forall m | m in p.nodes ensures NodesWithout(p, node, {})[m] == p.nodes[m] {
        assert p.nodes[m] - {} == p.nodes[m];
      }
    } else {
      NodesPartly(p, node, events, k - 1);
      PartlyHandled(p, node, events, k - 1);
      var n := events[k - 1].service;
      assert events[..k][..k - 1] == events[..k - 1] && events[..k][k - 1] == events[k - 1];
      var q := AfterFailures(p, events[..k - 1]);
      NotYetCovered(events, k, n);
      assert HandledAt(p, node, events[..k - 1], q.services[n], n);
      OwnEndpointsOnly(p, n, node);
      ForgetOnNode(p, node, GoneFrom(p, node, events[..k - 1]), OnNode(p.services[n].endpoints, node));
    }
  }

  /** Handling the events of a node takes out of the node's structure exactly the endpoints that services
      list there, leaves those under eviction in, and touches no other node. */
  lemma NodeForgetsExactly(p: Plane, node: string, events: seq<Failure>)
    requires Sound(p) && EventsFor(p, node, events)
    ensures AfterFailures(p, events).nodes == NodesWithout(p, node, ListedOn(p, node))
  {
    NodesPartly(p, node, events, |events|);
    assert events[..|events|] == events;
    GoneCovered(p, node, events);
    GoneIsListed(p, node, events);
  }

  lemma GoneIsListed(p: Plane, node: string, events: seq<Failure>)
    requires Sound(p) && EventsFor(p, node, events)
    ensures GoneFrom(p, node, events) == ListedOn(p, node)
  {
    GoneCovered(p, node, events);
    forall e | e in ListedOn(p, node) ensures e in GoneFrom(p, node, events) {
      var n :| n in p.services && e in p.services[n].endpoints && e.node == node;
      assert e in p.nodes[node] && e.sandboxID in IdsOn(p, node);
      assert Covered(events, n);
      var i :| 0 <= i < |events| && events[i].service == n;
      assert e in OnNode(p.services[events[i].service].endpoints, node);
    }
  }
}
