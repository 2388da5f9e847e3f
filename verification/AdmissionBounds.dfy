/** Concurrency bounds and queue statistics of the data plane, over every interleaving. */
module AdmissionBounds {
  import opened Basics
  import opened Options
  import opened Admission

  /** From taking a token to giving it back. */
  predicate Tokened(p: Place) {
    p.Holding? || p.Counted? || p.Running? || p.Releasing? || p.Signalling? || p.Posting? ||
    p.Stuck? || p.Returning?
  }

  /** Between the increment and the decrement of InFlight. */
  predicate InFlight(p: Place) {
    p.Counted? || p.Running?
  }

  /** Waiting for a cold start or inside the load balancer. */
  predicate Queueing(p: Phase) {
    p.at.Waiting? || p.at.Balancing? || p.at.Picked? || p.at.Holding? || p.at.Counted?
  }

  /** Not yet answered. */
  predicate Unfinished(p: Phase) {
    !p.at.Done?
  }

  function Those<P>(requests: map<nat, P>, test: P -> bool): set<nat> {
    set r | r in requests && test(requests[r])
  }

  function TokenTest(e: nat): Phase -> bool {
    (p: Phase) => Tokened(p.at) && p.end == e
  }

  function FlightTest(e: nat): Phase -> bool {
    (p: Phase) => InFlight(p.at) && p.end == e
  }

  function TokenHolders(s: State, e: nat): set<nat> {
    Those(s.requests, TokenTest(e))
  }

  function Flying(s: State, e: nat): set<nat> {
    Those(s.requests, FlightTest(e))
  }

  function Queued(s: State): set<nat> {
    Those(s.requests, Queueing)
  }

  function Unanswered(s: State): set<nat> {
    Those(s.requests, Unfinished)
  }

  ghost predicate EndOk(par: nat, requests: map<nat, Phase>, e: nat, x: End) {
    && 0 <= x.tokens && x.tokens + |Those(requests, TokenTest(e))| == par
    && x.inFlight == |Those(requests, FlightTest(e))|
  }

  ghost predicate EndsOk(par: nat, s: State) {
    forall e :: e in s.ends ==> e < s.nextEnd && EndOk(par, s.requests, e, s.ends[e])
  }

  predicate Rooted(ends: map<nat, End>, p: Phase) {
    Tokened(p.at) || p.at.Picked? ==> p.end in ends
  }

  ghost predicate PhasesOk(s: State) {
    && (forall r :: r in s.requests ==> Rooted(s.ends, s.requests[r]))
    && (forall e :: e in s.list ==> e in s.ends)
  }

  ghost predicate CountsOk(par: nat, s: State) {
    EndsOk(par, s) && PhasesOk(s) && s.queueDepth == |Queued(s)| && s.metric == |Unanswered(s)|
  }

  // --- One goroutine moves -------------------------------------------------------------------------

  lemma MovedSet<T>(before: set<T>, after: set<T>, r: T, now: bool)
    requires after == before - {r} + (if now then {r} else {})
    ensures |after| == |before| - One(r in before) + One(now)
  {
  }

  lemma ThoseAfter<P>(requests: map<nat, P>, r: nat, p: P, test: P -> bool)
    ensures Those(requests[r := p], test) == Those(requests, test) - {r} + (if test(p) then {r} else {})
  {
  }

  /** Moving one request changes a count by what the test says before and after. */
  lemma ThoseMoved<P>(requests: map<nat, P>, r: nat, p: P, test: P -> bool)
    ensures |Those(requests[r := p], test)| ==
      |Those(requests, test)| - One(r in requests && test(requests[r])) + One(test(p))
  {
    ThoseAfter(requests, r, p, test);
    MovedSet(Those(requests, test), Those(requests[r := p], test), r, test(p));
  }

  /** Every move changes tokens, InFlight and QueueDepth by exactly what its two places differ in. */
  lemma MoveTable(s: State, r: nat, q: Phase, m: Move, x: End)
    requires q.at == From(m)
    ensures var p := Next(s, r, q, m);
      && Touched(x, m).tokens == x.tokens + One(Tokened(q.at)) - One(Tokened(p.at))
      && Touched(x, m).inFlight == x.inFlight - One(InFlight(q.at)) + One(InFlight(p.at))
      && Depth(m) == One(Queueing(p)) - One(Queueing(q))
      && (Unfinished(q) && (Unfinished(p) <==> m != Finish))
      && (p.end != q.end ==> m.Pick? && !Tokened(q.at) && !Tokened(p.at))
      && (Tokened(p.at) && !Tokened(q.at) ==> q.at.Picked?)
      && (p.at.Picked? ==> m.Pick? && p.end == m.end)
  {
  }

  lemma GoEnds(par: nat, s: State, r: nat, m: Move, e: nat)
    requires CountsOk(par, s) && CanGo(s, r, m) && e in s.ends
    ensures e in GoStep(s, r, m).ends && EndOk(par, GoStep(s, r, m).requests, e, GoStep(s, r, m).ends[e])
  {
    var q := s.requests[r];
    assert EndOk(par, s.requests, e, s.ends[e]) && Rooted(s.ends, q);
    MoveTable(s, r, q, m, s.ends[e]);
    EndMoved(par, s.requests, r, Next(s, r, q, m), e, s.ends[e], GoStep(s, r, m).ends[e]);
  }

  /** The counters of one endpoint follow the places of the request that moved. */
  lemma EndMoved(par: nat, requests: map<nat, Phase>, r: nat, p: Phase, e: nat, x: End, x': End)
    requires r in requests && EndOk(par, requests, e, x) && 0 <= x'.tokens
    requires x'.tokens == x.tokens + One(TokenTest(e)(requests[r])) - One(TokenTest(e)(p))
    requires x'.inFlight == x.inFlight - One(FlightTest(e)(requests[r])) + One(FlightTest(e)(p))
    ensures EndOk(par, requests[r := p], e, x')
  {
    ThoseMoved(requests, r, p, TokenTest(e));
    ThoseMoved(requests, r, p, FlightTest(e));
  }

  lemma GoTotals(par: nat, s: State, r: nat, m: Move)
    requires CountsOk(par, s) && CanGo(s, r, m)
    ensures GoStep(s, r, m).queueDepth == |Queued(GoStep(s, r, m))|
    ensures GoStep(s, r, m).metric == |Unanswered(GoStep(s, r, m))|
  {
    var q := s.requests[r];
    MoveTable(s, r, q, m, NewEnd(0, Info("", "")));
    ThoseMoved(s.requests, r, Next(s, r, q, m), Queueing);
    ThoseMoved(s.requests, r, Next(s, r, q, m), Unfinished);
  }

  lemma GoPhases(s: State, r: nat, m: Move)
    requires PhasesOk(s) && CanGo(s, r, m)
    ensures PhasesOk(GoStep(s, r, m)) && GoStep(s, r, m).ends.Keys == s.ends.Keys
  {
    var q := s.requests[r];
    MoveTable(s, r, q, m, NewEnd(0, Info("", "")));
    assert Rooted(s.ends, q);
  }

  lemma CountsGo(par: nat, s: State, r: nat, m: Move)
    requires CountsOk(par, s) && CanGo(s, r, m)
    ensures CountsOk(par, GoStep(s, r, m))
  {
    var s' := GoStep(s, r, m);
    GoPhases(s, r, m);
    forall e | e in s'.ends ensures e < s'.nextEnd && EndOk(par, s'.requests, e, s'.ends[e]) {
      GoEnds(par, s, r, m, e);
    }
    GoTotals(par, s, r, m);
  }

  /** Nobody moves, and no counter changes. */
  lemma Still(par: nat, s: State, s': State)
    requires CountsOk(par, s) && s'.requests == s.requests && s'.queueDepth == s.queueDepth && s'.metric == s.metric
    requires s'.nextEnd == s.nextEnd && s'.ends.Keys == s.ends.Keys
    requires forall e :: e in s'.list ==> e in s.list
    requires forall e | e in s.ends ::
      s'.ends[e].tokens == s.ends[e].tokens && s'.ends[e].inFlight == s.ends[e].inFlight
    ensures CountsOk(par, s')
  {
  }

  lemma NewEndOk(par: nat, s: State, e: nat, info: Info)
    requires PhasesOk(s) && e !in s.ends
    ensures EndOk(par, s.requests, e, NewEnd(par, info))
  {
  }

  lemma CountsAdd(par: nat, s: State, infos: seq<Info>)
    requires CountsOk(par, s)
    ensures CountsOk(par, Added(par, s, infos))
  {
    var s' := Added(par, s, infos);
    forall e | e in s'.ends ensures e < s'.nextEnd && EndOk(par, s'.requests, e, s'.ends[e]) {
      if e in s.ends {
        assert EndOk(par, s.requests, e, s.ends[e]);
      } else {
        NewEndOk(par, s, e, infos[e - s.nextEnd]);
      }
    }
  }

  lemma CountsArrive(par: nat, s: State, r: nat)
    requires CountsOk(par, s) && r !in s.requests
    ensures CountsOk(par, s.(requests := s.requests[r := ARRIVED], metric := s.metric + 1))
  {
    var p := ARRIVED;
    var s' := s.(requests := s.requests[r := p], metric := s.metric + 1);
    forall e | e in s'.ends ensures e < s'.nextEnd && EndOk(par, s'.requests, e, s'.ends[e]) {
      assert EndOk(par, s.requests, e, s.ends[e]);
      ThoseMoved(s.requests, r, p, TokenTest(e));
      ThoseMoved(s.requests, r, p, FlightTest(e));
    }
    ThoseMoved(s.requests, r, p, Queueing);
    ThoseMoved(s.requests, r, p, Unfinished);
  }

  lemma {:induction false} RemoveUrlListed(ends: map<nat, End>, list: seq<nat>, url: string)
    ensures forall e :: e in RemoveUrl(ends, list, url) ==> e in list
  {
    if list != [] {
      RemoveUrlListed(ends, list[1..], url);
    }
  }

  lemma {:induction false} RemoveUrlsListed(ends: map<nat, End>, list: seq<nat>, infos: seq<Info>)
    ensures forall e :: e in RemoveUrls(ends, list, infos) ==> e in list
    decreases |infos|
  {
    if infos != [] {
      RemoveUrlListed(ends, list, infos[0].url);
      RemoveUrlsListed(ends, RemoveUrl(ends, list, infos[0].url), infos[1..]);
    }
  }

  lemma CountsOther(par: nat, s: State, a: Action)
    requires CountsOk(par, s) && Enabled(s, a) && !a.Go? && !a.AddLock? && !a.Arrive?
    ensures CountsOk(par, Apply(par, s, a))
  {
    var s' := Apply(par, s, a);
    if a.DrainUnlock? {
      RemoveUrlsListed(s.ends, s.list, s.holder.drain.infos);
    }
    if a.Mark? || a.Open? || a.Fill? || a.Await? {
      StillCounters(s, s', TouchedBy(s, a));
    }
    Still(par, s, s');
  }

  /** The endpoint whose flag or draining channel a step changes. */
  function TouchedBy(s: State, a: Action): nat
    requires Enabled(s, a) && (a.Mark? || a.Open? || a.Fill? || a.Await?)
  {
    if a.Mark? then s.holder.drain.todo[0] else if a.Await? then a.end else s.holder.end
  }

  lemma StillCounters(s: State, s': State, e: nat)
    requires e in s.ends && e in s'.ends && s'.ends == s.ends[e := s'.ends[e]]
    requires s'.ends[e].tokens == s.ends[e].tokens && s'.ends[e].inFlight == s.ends[e].inFlight
    ensures s'.ends.Keys == s.ends.Keys
    ensures forall x | x in s.ends ::
      s'.ends[x].tokens == s.ends[x].tokens && s'.ends[x].inFlight == s.ends[x].inFlight
  {
  }

  lemma CountsStep(par: nat, s: State, a: Action)
    requires CountsOk(par, s) && Enabled(s, a)
    ensures CountsOk(par, Apply(par, s, a))
  {
    match a
    case Arrive(r) => CountsArrive(par, s, r);
    case Go(r, m) => CountsGo(par, s, r, m);
    case AddLock(infos) => CountsAdd(par, s, infos);
    case _ => CountsOther(par, s, a);
  }

  lemma {:induction false} CountsRun(par: nat, s: State, run: seq<Action>)
    requires CountsOk(par, s) && Legal(par, s, run)
    ensures CountsOk(par, Exec(par, s, run))
    decreases |run|
  {
    if run != [] {
      CountsStep(par, s, run[0]);
      CountsRun(par, Apply(par, s, run[0]), run[1..]);
    }
  }

  lemma FewerFly(s: State, e: nat)
    ensures |Flying(s, e)| <= |TokenHolders(s, e)|
  {
    FewerIn(Flying(s, e), TokenHolders(s, e));
  }

  lemma FewerIn<T>(few: set<T>, many: set<T>)
    requires few <= many
    ensures |few| <= |many|
  {
    assert many == few + (many - few);
  }

  ghost predicate BoundedAt(par: nat, s: State, e: nat)
    requires e in s.ends
  {
    && s.ends[e].tokens + |TokenHolders(s, e)| == par && 0 <= s.ends[e].tokens
    && s.ends[e].inFlight == |Flying(s, e)| && 0 <= s.ends[e].inFlight <= par
  }

  /** In every interleaving, tokens are conserved for every endpoint ever created, listed or not, so
      at most `par` requests are in flight there; QueueDepth counts exactly the requests waiting for a
      cold start or inside the load balancer, and the reported metric exactly the unanswered ones. */
  lemma ConcurrencyIsBounded(par: nat, run: seq<Action>)
    requires Legal(par, EMPTY, run)
    ensures var s := Exec(par, EMPTY, run);
      && s.queueDepth == |Queued(s)| && s.metric == |Unanswered(s)|
      && (forall e :: e in s.ends ==> BoundedAt(par, s, e))
  {
    assert Those(EMPTY.requests, Queueing) == {} && Those(EMPTY.requests, Unfinished) == {};
    CountsRun(par, EMPTY, run);
    var s := Exec(par, EMPTY, run);
    forall e | e in s.ends ensures BoundedAt(par, s, e) {
      assert EndOk(par, s.requests, e, s.ends[e]);
      FewerFly(s, e);
    }
  }
}
