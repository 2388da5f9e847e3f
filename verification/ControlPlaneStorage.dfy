/** The control plane's storages and the operations that change them in place
    (internal/control_plane/control_plane.go, failure.go, helpers.go, scaling_loop.go). */
module ControlPlaneStorage {
  import opened Options
  import opened Endpoints
  import opened Scaling
  import opened NodeFailure

  lemma FailureKeepsSound(p: Plane, f: Failure)
    requires Sound(p)
    ensures Sound(AfterFailure(p, f))
  {
    if f.service in p.services {
      var gone := Failed(p.services[f.service].endpoints, Ids(f.ids));
      ExcludeMembers(p.services[f.service].endpoints, gone);
      var q := AfterFailure(p, f);
      forall n, e | n in q.services && e in q.services[n].endpoints
        ensures e.node in q.nodes && e in q.nodes[e.node] && e in p.services[n].endpoints
      {
        assert e in p.services[n].endpoints;
      }
    }
  }

  /** A failure report never changes how far a scale is from the number of endpoints. */
  lemma FailureKeepsBalance(p: Plane, f: Failure, n: string)
    requires IdsUnique(p) && n in p.services
    ensures var q := AfterFailure(p, f);
      && n in q.services
      && q.services[n].scale - |q.services[n].endpoints| == p.services[n].scale - |p.services[n].endpoints|
  {
    if f.service == n {
      ExcludeCount(p.services[n].endpoints, Failed(p.services[n].endpoints, Ids(f.ids)));
    }
  }

  lemma {:induction false} FailuresKeep(p: Plane, fs: seq<Failure>, n: string)
    requires Sound(p) && n in p.services
    ensures var q := AfterFailures(p, fs);
      && Sound(q) && q.services.Keys == p.services.Keys
      && q.services[n].scale - |q.services[n].endpoints| == p.services[n].scale - |p.services[n].endpoints|
    decreases |fs|
  {
    if fs != [] {
      var mid := AfterFailures(p, fs[..|fs| - 1]);
      FailuresKeep(p, fs[..|fs| - 1], n);
      SoundIds(mid);
      FailureKeepsSound(mid, fs[|fs| - 1]);
      FailureKeepsBalance(mid, fs[|fs| - 1], n);
    }
  }

  lemma ForgetNothing(nodes: map<string, set<Endpoint>>)
    ensures Forget(nodes, {}) == nodes
  {
    forall m | m in nodes ensures nodes[m] - {} == nodes[m] {
    }
  }

  lemma ForgetOne(nodes: map<string, set<Endpoint>>, gone: set<Endpoint>, e: Endpoint)
    requires e.node in nodes && forall m :: m in nodes && e in nodes[m] ==> m == e.node
    ensures var some := Forget(nodes, gone);
      some[e.node := some[e.node] - {e}] == Forget(nodes, gone + {e})
  {
    var some := Forget(nodes, gone);
    forall m | m in nodes
      ensures nodes[m] - (gone + {e}) == if m == e.node then some[m] - {e} else some[m]
    {
    }
  }

  lemma FailedMore(endpoints: seq<Endpoint>, ids: seq<string>, k: nat, found: Option<Endpoint>)
    requires k < |ids| && UniqueIds(endpoints)
    requires found.None? <==> forall e :: e in endpoints ==> e.sandboxID != ids[k]
    requires found.Some? ==> found.value in endpoints && found.value.sandboxID == ids[k]
    ensures Failed(endpoints, Ids(ids[..k + 1])) ==
      Failed(endpoints, Ids(ids[..k])) + (if found.Some? then {found.value} else {})
  {
  }

  /** The events built so far, for the services walked so far. */
  ghost predicate PartEvents(p: Plane, node: string, events: seq<Failure>, walked: set<string>) {
    && (forall i :: 0 <= i < |events| ==> events[i].service in walked && Ids(events[i].ids) == IdsOn(p, node))
    && (forall i, j :: 0 <= i < j < |events| ==> events[i].service != events[j].service)
    && (IdsOn(p, node) == {} ==> events == [])
    && (IdsOn(p, node) != {} ==> forall n :: n in walked ==> Covered(events, n))
  }

  lemma MoreEvents(p: Plane, node: string, events: seq<Failure>, walked: set<string>, name: string, ids: seq<string>)
    requires PartEvents(p, node, events, walked) && name !in walked && Ids(ids) == IdsOn(p, node)
    ensures PartEvents(p, node, if |ids| > 0 then events + [Failure(name, ids)] else events, walked + {name})
  {
    if |ids| > 0 {
      var more := events + [Failure(name, ids)];
      assert ids[0] in Ids(ids);
      assert more[|events|].service == name;
      CoveredStill(events, more);
    }
  }

  lemma AllEvents(p: Plane, node: string, events: seq<Failure>, walked: set<string>)
    requires PartEvents(p, node, events, walked) && walked == p.services.Keys
    ensures EventsFor(p, node, events)
  {
  }

  lemma CoveredStill(some: seq<Failure>, more: seq<Failure>)
    requires some <= more
    ensures forall n :: Covered(some, n) ==> Covered(more, n)
  {
    forall n | Covered(some, n) ensures Covered(more, n) {
      var i :| 0 <= i < |some| && some[i].service == n;
      assert more[i].service == n;
    }
  }

  method EndpointsOnNode(endpoints: seq<Endpoint>, node: string) returns (found: set<Endpoint>)
    ensures found == OnNode(endpoints, node)
  {
    found := {};
    for k := 0 to |endpoints|
      invariant found == OnNode(endpoints[..k], node)
    {
      if endpoints[k].node == node {
        found := found + {endpoints[k]};
      }
    }
    assert endpoints[..|endpoints|] == endpoints;
  }

  class ControlPlane {
    var services: map<string, Svc>
    var nodes: map<string, set<Endpoint>>
    /** Whether the lock of the node storage, or of the service storage, is taken for writing. */
    var nodesLocked: bool
    var servicesLocked: bool

    ghost function View(): Plane
      reads this
    {
      Plane(services, nodes)
    }

    constructor ()
      ensures View() == Plane(map[], map[]) && Sound(View()) && !nodesLocked && !servicesLocked
    {
      services, nodes, nodesLocked, servicesLocked := map[], map[], false, false;
    }

    /** Registers a node without sandboxes. `stored` says whether its entry could be persisted; if not, the
        clean-up asks for the lock that the call itself holds. No answer if the call blocks. */
    method RegisterNode(node: string, stored: bool) returns (answer: Option<bool>)
      requires Sound(View())
      modifies this`nodes, this`nodesLocked
      ensures Sound(View())
      ensures answer.None? <==> old(nodesLocked) || (node !in old(nodes) && !stored)
      ensures answer.Some? ==> answer.value == (node !in old(nodes)) && !nodesLocked
      ensures nodes == if answer == Some(true) then old(nodes)[node := {}] else old(nodes)
      ensures answer.None? ==> nodesLocked
    {
      if nodesLocked {
        return None;
      }
      if node in nodes {
        return Some(false);
      }
      if !stored {
        nodesLocked := true;
        return None;
      }
      NodeAddedSound(View(), node);
      nodes := nodes[node := {}];
      answer := Some(true);
    }

    /** Registers a service without endpoints, with the same clean-up. */
    method RegisterService(service: string, stored: bool) returns (answer: Option<bool>)
      requires Sound(View())
      modifies this`services, this`servicesLocked
      ensures Sound(View())
      ensures answer.None? <==> old(servicesLocked) || (service !in old(services) && !stored)
      ensures answer.Some? ==> answer.value == (service !in old(services)) && !servicesLocked
      ensures services == if answer == Some(true) then old(services)[service := Svc(0, [])] else old(services)
      ensures answer.None? ==> servicesLocked
    {
      if servicesLocked {
        return None;
      }
      if service in services {
        return Some(false);
      }
      if !stored {
        servicesLocked := true;
        return None;
      }
      ServiceAddedSound(View(), service);
      services := services[service := Svc(0, [])];
      answer := Some(true);
    }

    /** The ids of the sandboxes on a node; none if the lookup blocks, because the storage is locked for
        writing. */
    method GetServicesOnWorkerNode(node: string) returns (found: Option<seq<string>>)
      ensures found.None? <==> nodesLocked
      ensures found.Some? ==> Ids(found.value) == IdsOn(View(), node)
    {
      if nodesLocked {
        return None;
      }
      var ids := [];
      if node !in nodes {
        return Some(ids);
      }
      var todo := nodes[node];
      while todo != {}
        invariant todo <= nodes[node]
        invariant Ids(ids) == set e | e in nodes[node] - todo :: e.sandboxID
        decreases |todo|
      {
        var e :| e in todo;
        ghost var before := ids;
        ids := ids + [e.sandboxID];
        assert Ids(ids) == Ids(before) + {e.sandboxID};
        todo := todo - {e};
      }
      found := Some(ids);
    }

    /** One event per service; none if building them blocks. */
    method CreateWorkerNodeFailureEvents(node: string) returns (built: Option<seq<Failure>>)
      ensures built.None? <==> nodesLocked && services.Keys != {}
      ensures built.Some? ==> EventsFor(View(), node, built.value) && (services.Keys == {} ==> built.value == [])
    {
      var events := [];
      var todo := services.Keys;
      ghost var walked := {};
      while todo != {}
        invariant walked !! todo && walked + todo == services.Keys
        invariant PartEvents(View(), node, events, walked)
        invariant (nodesLocked ==> walked == {}) && (walked == {} ==> events == [])
        decreases todo
      {
        var name :| name in todo;
        var found := GetServicesOnWorkerNode(node);
        if found.None? {
          return None;
        }
        var ids := found.value;
        MoreEvents(View(), node, events, walked, name, ids);
        events := if |ids| > 0 then events + [Failure(name, ids)] else events;
        walked, todo := walked + {name}, todo - {name};
      }
      AllEvents(View(), node, events, walked);
      built := Some(events);
    }

    /** failure.go, removeEndpoints. */
    method RemoveEndpoints(service: string, ids: seq<string>)
      requires service in services && UniqueIds(services[service].endpoints)
      requires forall e :: e in services[service].endpoints ==> e.node in nodes
      requires AtHome(nodes)
      modifies this`services, this`nodes
      ensures View() == AfterFailure(old(View()), Failure(service, ids))
      ensures var svc := old(services)[service]; var gone := set e | e in svc.endpoints && e.sandboxID in ids;
        && services == old(services)[service := Svc(svc.scale - |gone|, Exclude(svc.endpoints, gone))]
        && nodes.Keys == old(nodes).Keys && forall m :: m in nodes ==> nodes[m] == old(nodes)[m] - gone
    {
      var svc := services[service];
      var toRemove := {};
      ForgetNothing(nodes);
      for k := 0 to |ids|
        invariant services == old(services) && toRemove == Failed(svc.endpoints, Ids(ids[..k]))
        invariant nodes == Forget(old(nodes), toRemove)
      {
        var found := SearchEndpoint(svc.endpoints, ids[k]);
        FailedMore(svc.endpoints, ids, k, found);
        if found.Some? {
          var e := found.value;
          ForgetOne(old(nodes), toRemove, e);
          toRemove := toRemove + {e};
          nodes := nodes[e.node := nodes[e.node] - {e}];
        }
      }
      assert ids[..|ids|] == ids;
      assert toRemove == set e | e in svc.endpoints && e.sandboxID in ids;
      var rest := ExcludeEndpoints(svc.endpoints, toRemove);
      services := services[service := Svc(svc.scale - |toRemove|, rest)];
    }

    /** failure.go, HandleFailure. */
    method HandleFailure(failures: seq<Failure>)
      requires Sound(View())
      modifies this`services, this`nodes
      ensures View() == AfterFailures(old(View()), failures) && Sound(View())
    {
      for k := 0 to |failures|
        invariant View() == AfterFailures(old(View()), failures[..k]) && Sound(View())
      {
        assert failures[..k + 1][..k] == failures[..k];
        FailureKeepsSound(View(), failures[k]);
        SoundIds(View());
        if failures[k].service in services {
          RemoveEndpoints(failures[k].service, failures[k].ids);
        }
      }
      assert failures[..|failures|] == failures;
    }

    /** The monitoring loop as it stands takes the lock of the node storage and asks for it again while
        building the events. One round with the given silent nodes never ends exactly if one of them is
        registered and some service is; a round that ends has built no event at all. */
    method CheckWorkerNodes(silent: set<string>) returns (events: Option<seq<Failure>>)
      requires !nodesLocked
      modifies this`nodesLocked
      ensures events.None? <==> silent * nodes.Keys != {} && services.Keys != {}
      ensures events.None? ==> nodesLocked
      ensures events.Some? ==> events.value == [] && !nodesLocked
    {
      nodesLocked := true;
      events := Some([]);
      var todo := nodes.Keys;
      while todo != {}
        invariant nodesLocked && todo <= nodes.Keys && events.Some? && events.value == []
        invariant services.Keys == {} || silent * nodes.Keys <= todo
        decreases todo
      {
        var node :| node in todo;
        todo := todo - {node};
        if node in silent {
          var more := CreateWorkerNodeFailureEvents(node);
          if more.None? {
            assert node in silent * nodes.Keys;
            return None;
          }
          events := Some(events.value + more.value);
        }
      }
      nodesLocked := false;
    }

    /** What is to happen to a node that has missed its heartbeats: the same two calls, made without
        holding the lock of the node storage. */
    method HandleNodeFailure(node: string)
      requires Sound(View()) && !nodesLocked
      modifies this`services, this`nodes
      ensures Sound(View())
      ensures services == WithoutNode(old(View()), node)
      ensures nodes == NodesWithout(old(View()), node, ListedOn(old(View()), node))
    {
      var events := CreateWorkerNodeFailureEvents(node);
      NodeFailureIsExact(View(), node, events.value);
      NodeForgetsExactly(View(), node, events.value);
      HandleFailure(events.value);
    }

    method DropFromService(name: string, node: string)
      requires name in services
      modifies this`services
      ensures services == old(services)[name := Rest(old(services)[name], node)]
    {
      var svc := services[name];
      var toExclude := EndpointsOnNode(svc.endpoints, node);
      var rest := ExcludeEndpoints(svc.endpoints, toExclude);
      services := services[name := Svc(svc.scale - |toExclude|, rest)];
    }

    /** helpers.go, removeEndointsAssociatedWithNode, with the map of services walked in any order. */
    method RemoveEndpointsAssociatedWithNode(node: string)
      modifies this`services
      ensures services == WithoutNode(old(View()), node)
    {
      var todo := services.Keys;
      while todo != {}
        invariant todo <= services.Keys == old(services).Keys
        invariant forall n :: n in todo ==> services[n] == old(services)[n]
        invariant forall n :: n in services && n !in todo ==> services[n] == Rest(old(services)[n], node)
        decreases |todo|
      {
        var name :| name in todo;
        DropFromService(name, node);
        todo := todo - {name};
      }
    }

    /** control_plane.go, DeregisterNode: the services end up as after a failure of the node. `deleted`
        says whether the persisted entry of the node could be deleted. */
    method DeregisterNode(node: string, deleted: bool) returns (success: bool)
      requires Sound(View())
      modifies this`services, this`nodes
      ensures success == (node in old(nodes) && deleted)
      ensures !success ==> View() == old(View())
      ensures success ==> services == WithoutNode(old(View()), node) && nodes == old(nodes) - {node} && Sound(View())
    {
      if node in nodes {
        if !deleted {
          return false;
        }
        RemoveEndpointsAssociatedWithNode(node);
        nodes := nodes - {node};
        NodeGoneSound(old(View()), node);
        return true;
      }
      return false;
    }

    /** The success branch of one sandbox creation: the node learns of it before the service does. */
    method AddSandbox(service: string, e: Endpoint)
      requires Sound(View()) && service in services && e.node in nodes
      requires forall m, f :: m in nodes && f in nodes[m] ==> f.sandboxID != e.sandboxID && f != e
      modifies this`services, this`nodes
      ensures Sound(View())
      ensures nodes == old(nodes)[e.node := old(nodes)[e.node] + {e}]
      ensures var svc := old(services)[service];
        services == old(services)[service := Svc(svc.scale, svc.endpoints + [e])]
    {
      ghost var before := View();
      nodes := nodes[e.node := nodes[e.node] + {e}];
      services := services[service := services[service].(endpoints := services[service].endpoints + [e])];
      SandboxAddedSound(before, service, e);
    }

    /** A victim leaves the service at once and its node only after it has been drained and deleted. */
    method FinishEviction(e: Endpoint)
      requires Sound(View()) && e.node in nodes
      requires forall n :: n in services ==> e !in services[n].endpoints
      modifies this`nodes
      ensures Sound(View()) && nodes == old(nodes)[e.node := old(nodes)[e.node] - {e}]
    {
      nodes := nodes[e.node := nodes[e.node] - {e}];
    }
  }

  lemma NodeAddedSound(p: Plane, node: string)
    requires Sound(p) && node !in p.nodes
    ensures Sound(Plane(p.services, p.nodes[node := {}]))
  {
  }

  lemma ServiceAddedSound(p: Plane, service: string)
    requires Sound(p) && service !in p.services
    ensures Sound(Plane(p.services[service := Svc(0, [])], p.nodes))
  {
  }

  lemma NodeGoneSound(p: Plane, node: string)
    requires Sound(p)
    ensures Sound(Plane(WithoutNode(p, node), p.nodes - {node}))
  {
    var q := Plane(WithoutNode(p, node), p.nodes - {node});
    forall n | n in p.services
      ensures Distinct(q.services[n].endpoints)
      ensures forall e :: e in q.services[n].endpoints <==> e in p.services[n].endpoints && e.node != node
    {
      ExcludeMembers(p.services[n].endpoints, OnNode(p.services[n].endpoints, node));
    }
  }

  lemma SandboxAddedSound(p: Plane, service: string, e: Endpoint)
    requires Sound(p) && service in p.services && e.node in p.nodes
    requires forall m, f :: m in p.nodes && f in p.nodes[m] ==> f.sandboxID != e.sandboxID && f != e
    ensures Sound(Plane(p.services[service := p.services[service].(endpoints := p.services[service].endpoints + [e])],
                        p.nodes[e.node := p.nodes[e.node] + {e}]))
  {
  }
}
