/** The number of sandboxes a service believes it has against the sandboxes it lists. The scaling
    loop swaps `ActualScale` first and takes the endpoint lock later; failure handling and node
    deregistration change the same two things in between. */
module Scaling {
  import opened Basics
  import opened Options
  import opened Endpoints

  /** `Swapped` is a loop that has replaced the scale and not yet taken the lock; `Creating` holds
      the lock and waits for sandboxes. */
  datatype Loop = Idle | Swapped(before: int, desired: int) | Creating(left: nat)

  /** `failing` are endpoints a failure handler has subtracted and not yet excluded, `owed` what a
      deregistration has excluded and not yet subtracted. `shortfall` adds up the victims that the
      loop reported it could not find. */
  datatype Service = Service(
    scale: int, endpoints: seq<Endpoint>, loop: Loop, failing: Option<set<Endpoint>>, owed: Option<nat>, shortfall: nat)

  const NEW_SERVICE := Service(0, [], Idle, None, None, 0)

  datatype Action =
    | Swap(desired: int)
    | Lock
    | Evict(victims: set<Endpoint>)
    | Created(endpoint: Endpoint)
    | CreateFailed
    | Unlock
    | Fail(ids: set<string>)
    | FailDone
    | Deregister(node: string)
    | Settle

  predicate LockFree(s: Service) {
    !s.loop.Creating? && s.failing.None?
  }

  function Failed(endpoints: seq<Endpoint>, ids: set<string>): set<Endpoint> {
    set e | e in endpoints && e.sandboxID in ids
  }

  function OnNode(endpoints: seq<Endpoint>, node: string): set<Endpoint> {
    set e | e in endpoints && e.node == node
  }

  predicate Enabled(s: Service, a: Action) {
    match a
    case Swap(_) => s.loop == Idle
    case Lock => s.loop.Swapped? && s.loop.before <= s.loop.desired && LockFree(s)
    case Evict(victims) =>
      && s.loop.Swapped? && s.loop.before > s.loop.desired && LockFree(s)
      && victims <= Elements(s.endpoints)
      && |victims| == Min(Wanted(s.loop.before, s.loop.desired), |s.endpoints|)
    case Created(e) => s.loop.Creating? && s.loop.left > 0 && e !in s.endpoints
    case CreateFailed => s.loop.Creating? && s.loop.left > 0
    case Unlock => s.loop == Creating(0)
    case Fail(_) => LockFree(s)
    case FailDone => s.failing.Some?
    case Deregister(_) => LockFree(s) && s.owed.None?
    case Settle => s.owed.Some?
  }

  function Apply(s: Service, a: Action): Service
    requires Enabled(s, a)
  {
    match a
    case Swap(d) => s.(scale := d, loop := Swapped(s.scale, d))
    case Lock => s.(loop := if s.loop.before < s.loop.desired then Creating(s.loop.desired - s.loop.before) else Idle)
    case Evict(victims) =>
      s.(endpoints := Exclude(s.endpoints, victims), loop := Idle,
         shortfall := s.shortfall + Missing(s.loop.before, s.loop.desired, |s.endpoints|))
    case Created(e) => s.(endpoints := s.endpoints + [e], loop := Creating(s.loop.left - 1))
    case CreateFailed => s.(scale := s.scale - 1, loop := Creating(s.loop.left - 1))
    case Unlock => s.(loop := Idle)
    case Fail(ids) =>
      var gone := Failed(s.endpoints, ids);
      s.(scale := s.scale - |gone|, failing := Some(gone))
    case FailDone => s.(endpoints := Exclude(s.endpoints, s.failing.value), failing := None)
    case Deregister(node) =>
      var gone := OnNode(s.endpoints, node);
      s.(endpoints := Exclude(s.endpoints, gone), owed := Some(|gone|))
    case Settle => s.(scale := s.scale - s.owed.value, owed := None)
  }

  predicate Legal(s: Service, run: seq<Action>)
    decreases |run|
  {
    run == [] || (Enabled(s, run[0]) && Legal(Apply(s, run[0]), run[1..]))
  }

  function Exec(s: Service, run: seq<Action>): Service
    requires Legal(s, run)
    decreases |run|
  {
    if run == [] then s else Exec(Apply(s, run[0]), run[1..])
  }

  /** What the loop still has to add to the list, or take away from it. */
  function Pending(s: Service): int {
    (match s.loop
     case Idle => 0
     case Swapped(before, desired) => desired - before
     case Creating(left) => left)
    - (if s.failing.Some? then |s.failing.value| else 0)
    + (if s.owed.Some? then s.owed.value else 0)
  }

  ghost predicate Conserved(s: Service) {
    && s.scale == |s.endpoints| + Pending(s) - s.shortfall
    && Distinct(s.endpoints)
    && (s.failing.Some? ==> s.failing.value <= Elements(s.endpoints) && !s.loop.Creating?)
  }

  lemma ConservedStep(s: Service, a: Action)
    requires Conserved(s) && Enabled(s, a)
    ensures Conserved(Apply(s, a))
  {
    match a
    case Evict(victims) =>
      ExcludeCount(s.endpoints, victims);
      ExcludeMembers(s.endpoints, victims);
    case FailDone =>
      ExcludeCount(s.endpoints, s.failing.value);
      ExcludeMembers(s.endpoints, s.failing.value);
    case Deregister(node) =>
      ExcludeCount(s.endpoints, OnNode(s.endpoints, node));
      ExcludeMembers(s.endpoints, OnNode(s.endpoints, node));
    case _ =>
  }

  lemma {:induction false} ConservedRun(s: Service, run: seq<Action>)
    requires Conserved(s) && Legal(s, run)
    ensures Conserved(Exec(s, run))
    decreases |run|
  {
    if run != [] {
      ConservedStep(s, run[0]);
      ConservedRun(Apply(s, run[0]), run[1..]);
    }
  }

  predicate Quiet(s: Service) {
    s.loop == Idle && s.failing == None && s.owed == None
  }

  /** Scale conservation: in every interleaving the scale is the number of endpoints plus what is
      pending minus the reported shortfall, so with nothing pending it equals the number of
      endpoints exactly when no shortfall was ever reported. */
  lemma ScaleIsConserved(run: seq<Action>)
    requires Legal(NEW_SERVICE, run)
    ensures var s := Exec(NEW_SERVICE, run);
      && s.scale == |s.endpoints| + Pending(s) - s.shortfall
      && (Quiet(s) ==> (s.scale == |s.endpoints| <==> s.shortfall == 0))
  {
    ConservedRun(NEW_SERVICE, run);
  }

  // --- Which endpoints come and go -------------------------------------------------------------

  /** The step takes the endpoint off the list: it is evicted, its node is deregistered, or a failure
      handler that was told its id finishes. */
  predicate Removes(s: Service, a: Action, e: Endpoint) {
    match a
    case Evict(victims) => e in victims
    case FailDone => s.failing.Some? && e in s.failing.value
    case Deregister(node) => e.node == node
    case _ => false
  }

  /** One step: exactly the endpoints it removes leave, the others keep their order, and only a completed
      creation adds one, at the end. */
  lemma ListExactly(s: Service, a: Action)
    requires Enabled(s, a)
    ensures var s' := Apply(s, a);
      && (forall e :: e in s'.endpoints <==> (e in s.endpoints && !Removes(s, a, e)) || a == Created(e))
      && (a.Created? ==> s'.endpoints == s.endpoints + [a.endpoint])
      && (exists gone :: s'.endpoints == Exclude(s.endpoints, gone) + if a.Created? then [a.endpoint] else [])
      && (a.Fail? ==> s'.failing.Some?)
      && (a.Fail? ==> forall e :: e in s'.failing.value <==> e in s.endpoints && e.sandboxID in a.ids)
  {
    var gone := match a
      case Evict(victims) => victims
      case FailDone => s.failing.value
      case Deregister(node) => OnNode(s.endpoints, node)
      case _ => {};
    ExcludeMembers(s.endpoints, gone);
    if gone == {} {
      ExcludeNone(s.endpoints, {});
    }
    assert Apply(s, a).endpoints == Exclude(s.endpoints, gone) + if a.Created? then [a.endpoint] else [];
  }

  /** Some step names the endpoint: by eviction, by its node, or by its id. */
  predicate Named(a: Action, e: Endpoint) {
    match a
    case Evict(victims) => e in victims
    case Fail(ids) => e.sandboxID in ids
    case Deregister(node) => e.node == node
    case _ => false
  }

  lemma {:induction false} UnnamedStays(s: Service, run: seq<Action>, e: Endpoint)
    requires Legal(s, run) && e in s.endpoints && (s.failing.Some? ==> e !in s.failing.value)
    requires forall i :: 0 <= i < |run| ==> !Named(run[i], e)
    ensures e in Exec(s, run).endpoints
    decreases |run|
  {
    if run != [] {
      ListExactly(s, run[0]);
      UnnamedStays(Apply(s, run[0]), run[1..], e);
    }
  }

  lemma {:induction false} UncreatedStaysAway(s: Service, run: seq<Action>, e: Endpoint)
    requires Legal(s, run) && e !in s.endpoints && forall i :: 0 <= i < |run| ==> run[i] != Created(e)
    ensures e !in Exec(s, run).endpoints
    decreases |run|
  {
    if run != [] {
      ListExactly(s, run[0]);
      UncreatedStaysAway(Apply(s, run[0]), run[1..], e);
    }
  }

  // --- When the shortfall happens -----------------------------------------------------------

  /** An eviction takes place while the scale covers what a deregistration still has to take off it. */
  predicate Affords(s: Service, a: Action) {
    a.Evict? ==> s.scale >= if s.owed.Some? then s.owed.value else 0
  }

  predicate AllAfforded(s: Service, run: seq<Action>)
    requires Legal(s, run)
    decreases |run|
  {
    run == [] || (Affords(s, run[0]) && AllAfforded(Apply(s, run[0]), run[1..]))
  }

  lemma {:induction false} ShortfallStays(s: Service, run: seq<Action>)
    requires Legal(s, run)
    ensures Exec(s, run).shortfall >= s.shortfall
    decreases |run|
  {
    if run != [] {
      ShortfallStays(Apply(s, run[0]), run[1..]);
    }
  }

  lemma {:induction false} AffordedRun(s: Service, run: seq<Action>)
    requires Conserved(s) && s.shortfall == 0 && Legal(s, run)
    ensures Exec(s, run).shortfall == 0 <==> AllAfforded(s, run)
    decreases |run|
  {
    if run != [] {
      var s' := Apply(s, run[0]);
      ConservedStep(s, run[0]);
      if s'.shortfall == 0 {
        AffordedRun(s', run[1..]);
      } else {
        ShortfallStays(s', run[1..]);
      }
    }
  }

  /** A service never reports a shortfall, and so lists as many endpoints as its scale says whenever it is
      quiet, exactly if every eviction takes place while the scale covers what is owed. */
  lemma ShortfallExactly(run: seq<Action>)
    requires Legal(NEW_SERVICE, run)
    ensures var s := Exec(NEW_SERVICE, run);
      && (s.shortfall == 0 <==> AllAfforded(NEW_SERVICE, run))
      && (Quiet(s) ==> (s.scale == |s.endpoints| <==> AllAfforded(NEW_SERVICE, run)))
  {
    AffordedRun(NEW_SERVICE, run);
    ConservedRun(NEW_SERVICE, run);
  }

  /** A step that does not fall between the loop's swap and its lock, nor the swap between the two
      halves of a deregistration. */
  predicate Calm(s: Service, a: Action) {
    && (a.Fail? || a.Deregister? ==> !s.loop.Swapped?)
    && (a.Swap? ==> a.desired >= 0 && s.owed.None?)
  }

  predicate AllCalm(s: Service, run: seq<Action>)
    requires Legal(s, run)
    decreases |run|
  {
    run == [] || (Calm(s, run[0]) && AllCalm(Apply(s, run[0]), run[1..]))
  }

  lemma {:induction false} CalmRun(s: Service, run: seq<Action>)
    requires Conserved(s) && s.shortfall == 0 && Legal(s, run) && AllCalm(s, run)
    requires s.loop.Swapped? ==> s.owed.None? && s.scale == s.loop.desired >= 0
    ensures Exec(s, run).shortfall == 0
    decreases |run|
  {
    if run != [] {
      ConservedStep(s, run[0]);
      CalmRun(Apply(s, run[0]), run[1..]);
    }
  }

  /** Without such overlap nothing is ever missing, and a quiet service lists as many endpoints as
      its scale says. */
  lemma CalmServiceIsExact(run: seq<Action>)
    requires Legal(NEW_SERVICE, run) && AllCalm(NEW_SERVICE, run)
    ensures var s := Exec(NEW_SERVICE, run); s.shortfall == 0 && (Quiet(s) ==> s.scale == |s.endpoints|)
  {
    CalmRun(NEW_SERVICE, run);
    ConservedRun(NEW_SERVICE, run);
  }

  ghost predicate Reachable(s: Service) {
    exists run :: Legal(NEW_SERVICE, run) && Exec(NEW_SERVICE, run) == s
  }

  lemma {:induction false} Append(s: Service, run: seq<Action>, a: Action)
    requires Legal(s, run) && Enabled(Exec(s, run), a)
    ensures Legal(s, run + [a]) && Exec(s, run + [a]) == Apply(Exec(s, run), a)
    decreases |run|
  {
    if run == [] {
      assert run + [a] == [a];
    } else {
      Append(Apply(s, run[0]), run[1..], a);
      assert (run + [a])[1..] == run[1..] + [a];
    }
  }

  lemma Advance(s: Service, a: Action) returns (s': Service)
    requires Reachable(s) && Enabled(s, a)
    ensures s' == Apply(s, a) && Reachable(s')
  {
    var run :| Legal(NEW_SERVICE, run) && Exec(NEW_SERVICE, run) == s;
    Append(NEW_SERVICE, run, a);
    s' := Apply(s, a);
  }

  /** The only sandbox of a service. */
  lemma OneSandbox(e: Endpoint) returns (s: Service)
    ensures Reachable(s) && s == Service(1, [e], Idle, None, None, 0)
  {
    assert Exec(NEW_SERVICE, []) == NEW_SERVICE;
    s := Advance(NEW_SERVICE, Swap(1));
    s := Advance(s, Lock);
    s := Advance(s, Created(e));
    s := Advance(s, Unlock);
  }

  /** With overlap it does happen: the only sandbox fails between the swap to zero and the lock, and
      the scale ends below zero. */
  lemma OverlapLosesCount(e: Endpoint) returns (s: Service)
    ensures Reachable(s) && s == Service(-1, [], Idle, None, None, 1)
  {
    s := OneSandbox(e);
    assert Failed([e], {e.sandboxID}) == {e};
    assert Exclude([e], {e}) == Exclude([e][..0], {e});
    s := Advance(s, Swap(0));
    s := Advance(s, Fail({e.sandboxID}));
    s := Advance(s, FailDone);
    s := Advance(s, Evict({}));
  }

  /** The next scale-up to one then creates one sandbox too many, for good. */
  lemma OverlapLeaksSandbox(e: Endpoint, f: Endpoint) returns (s: Service)
    requires e != f
    ensures Reachable(s) && Quiet(s) && s.scale == 1 && s.endpoints == [e, f]
  {
    s := OverlapLosesCount(e);
    s := Advance(s, Swap(1));
    s := Advance(s, Lock);
    s := Advance(s, Created(e));
    s := Advance(s, Created(f));
    s := Advance(s, Unlock);
  }
}
