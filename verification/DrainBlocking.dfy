/** Requests that block for good on a draining channel, and exactly when: on a nil channel, or on a full
    one that no drain will receive from any more. */
module DrainBlocking {
  import opened Options
  import opened Admission
  import opened AdmissionBounds
  import opened Draining
  import opened Reachability
  import opened MetadataLock
  import opened RequestRuns

  /** Some continuation lets the request past its signal. */
  ghost predicate CanReturn(par: nat, s: State, r: nat) {
    exists run :: Returns(par, s, run, r)
  }

  predicate Returns(par: nat, s: State, run: seq<Action>, r: nat) {
    Legal(par, s, run) && r in Exec(par, s, run).requests && Exec(par, s, run).requests[r].at.Returning?
  }

  lemma ReturnLater(par: nat, s: State, a: Action, r: nat)
    requires Enabled(s, a) && CanReturn(par, Apply(par, s, a), r)
    ensures CanReturn(par, s, r)
  {
    var run :| Returns(par, Apply(par, s, a), run, r);
    assert ([a] + run)[1..] == run;
    assert Returns(par, s, [a] + run, r);
  }

  predicate PostingAt(s: State, r: nat, e: nat) {
    r in s.requests && s.requests[r].at.Posting? && s.requests[r].end == e
  }

  /** The channel is full, no drain waits for it, and none that holds the lock will get to wait. */
  ghost predicate Unheard(s: State, e: nat) {
    FullAt(s, e) && (e in Barriers(s) ==> Doomed(s))
  }

  // --- Requests that get through ---------------------------------------------------------------------

  lemma EmptyReturns(par: nat, s: State, r: nat, e: nat)
    requires PostingAt(s, r, e) && e in s.ends && s.ends[e].callback == Some(false)
    ensures CanReturn(par, s, r)
  {
    assert Returns(par, GoStep(s, r, Signal), [], r);
    ReturnLater(par, s, Go(r, Signal), r);
  }

  lemma BarredReturns(par: nat, s: State, r: nat, e: nat)
    requires PostingAt(s, r, e) && e in s.ends && s.ends[e].callback == Some(true) && e in s.barred
    ensures CanReturn(par, s, r)
  {
    EmptyReturns(par, Apply(par, s, Await(e)), r, e);
    ReturnLater(par, s, Await(e), r);
  }

  /** While a channel is full and unawaited, only the end of the drain brings it a receiver. */
  lemma BarrierStep(par: nat, s: State, a: Action, e: nat)
    requires EndsOk(par, s) && DrainOk(s) && FullAt(s, e) && Enabled(s, a)
    ensures !a.DrainUnlock? ==> FullAt(Apply(par, s, a), e) && (e in Barriers(Apply(par, s, a)) <==> e in Barriers(s))
    ensures a.DrainUnlock? ==>
      var s' := Apply(par, s, a);
      s'.ends == s.ends && Barriers(s') == {} && (e in s'.barred <==> e in Barriers(s))
  {
    FullStep(par, s, a, e);
    match a
    case Open => ShapeOpen(par, s);
    case _ =>
  }

  /** A full channel keeps the request where it is. */
  lemma PostingStep(par: nat, s: State, a: Action, r: nat, e: nat)
    requires FullAt(s, e) && PostingAt(s, r, e) && Enabled(s, a)
    ensures PostingAt(Apply(par, s, a), r, e)
  {
    match a
    case Go(q, m) => assert q == r ==> m.Signal?;
    case _ =>
  }

  /** If a run frees the lock, it brings the drain to wait, and the request is heard. */
  lemma {:induction false} HeardAfter(par: nat, s: State, run: seq<Action>, r: nat, e: nat)
    requires AllOk(par, s) && FullAt(s, e) && PostingAt(s, r, e) && e in Barriers(s) && Unlocks(par, s, run)
    ensures CanReturn(par, s, r)
    decreases |run|
  {
    var a := run[0];
    var s' := Apply(par, s, a);
    PostingStep(par, s, a, r, e);
    BarrierStep(par, s, a, e);
    AllStep(par, s, a);
    if a.DrainUnlock? {
      BarredReturns(par, s', r, e);
    } else {
      HeardAfter(par, s', run[1..], r, e);
    }
    ReturnLater(par, s, a, r);
  }

  // --- Requests that do not --------------------------------------------------------------------------

  lemma UnheardStep(par: nat, s: State, a: Action, e: nat)
    requires AllOk(par, s) && Unheard(s, e) && Enabled(s, a)
    ensures Unheard(Apply(par, s, a), e)
  {
    BarrierStep(par, s, a, e);
    if Doomed(s) {
      DoomedStep(par, s, a);
    }
  }

  lemma {:induction false} UnheardRun(par: nat, s: State, run: seq<Action>, r: nat, e: nat)
    requires AllOk(par, s) && Unheard(s, e) && PostingAt(s, r, e) && Legal(par, s, run)
    ensures PostingAt(Exec(par, s, run), r, e)
    decreases |run|
  {
    if run != [] {
      UnheardStep(par, s, run[0], e);
      PostingStep(par, s, run[0], r, e);
      AllStep(par, s, run[0]);
      UnheardRun(par, Apply(par, s, run[0]), run[1..], r, e);
    }
  }

  /** A request that is sending on the draining channel gets through in some continuation exactly if the
      channel is empty, or a drain waits for it, or the drain that will is not doomed. */
  lemma PostingReturnsExactly(par: nat, s: State, r: nat)
    requires Reachable(par, s) && r in s.requests && s.requests[r].at.Posting?
    ensures CanReturn(par, s, r) <==> !Unheard(s, s.requests[r].end)
  {
    ReachableOk(par, s);
    var e := s.requests[r].end;
    assert SawChannel(s.ends, e);
    FullOrEmpty(s.ends[e].callback);
    if Unheard(s, e) {
      forall run | Legal(par, s, run) ensures !Returns(par, s, run, r) {
        UnheardRun(par, s, run, r, e);
      }
    } else if s.ends[e].callback == Some(false) {
      EmptyReturns(par, s, r, e);
    } else if e in s.barred {
      BarredReturns(par, s, r, e);
    } else {
      assert !MarkedNow(s, e);
      OthersUnlock(par, s, None);
      var run :| UnlocksPast(par, s, run, None);
      HeardAfter(par, s, run, r, e);
    }
  }

  lemma {:induction false} StuckRun(par: nat, s: State, r: nat, run: seq<Action>)
    requires r in s.requests && s.requests[r].at.Stuck? && Legal(par, s, run)
    ensures r in Exec(par, s, run).requests && Exec(par, s, run).requests[r] == s.requests[r]
    decreases |run|
  {
    if run != [] {
      StuckStep(par, s, r, run[0]);
      StuckRun(par, Apply(par, s, run[0]), r, run[1..]);
    }
  }

  lemma StuckStep(par: nat, s: State, r: nat, a: Action)
    requires r in s.requests && s.requests[r].at.Stuck? && Enabled(s, a)
    ensures r in Apply(par, s, a).requests && Apply(par, s, a).requests[r] == s.requests[r]
  {
  }

  /** Moves between places that do not decide whether a drain is doomed. */
  predicate Neutral(p: Phase) {
    !p.at.Holding? && !p.at.Picked? && !p.at.Returning? && (p.at.Releasing? ==> p.last)
  }

  lemma SameIdle(s: State, s': State, r: nat, e: nat)
    requires e in s.ends && s'.ends == s.ends && r in s.requests && r in s'.requests
    requires s'.requests == s.requests[r := s'.requests[r]] && Neutral(s.requests[r]) && Neutral(s'.requests[r])
    ensures Idle(s', e) <==> Idle(s, e)
  {
    assert forall q :: q in s.requests && q != r ==> s'.requests[q] == s.requests[q];
  }

  lemma NeutralUnheard(s: State, r: nat, m: Move, e: nat)
    requires CanGo(s, r, m) && (m.Evaluate? || m.CheckDrained? || m.Receive?)
    requires Neutral(s.requests[r]) && Neutral(Next(s, r, s.requests[r], m))
    ensures Unheard(GoStep(s, r, m), e) <==> Unheard(s, e)
    ensures Doomed(GoStep(s, r, m)) <==> Doomed(s)
  {
    var s' := GoStep(s, r, m);
    assert s'.ends == s.ends && s'.holder == s.holder && s'.barred == s.barred;
    forall d | d in s.ends ensures Idle(s', d) <==> Idle(s, d) {
      SameIdle(s, s', r, d);
    }
  }

  /** A request that now evaluates the draining channel of its endpoint blocks for good exactly if the
      endpoint is flagged and the channel not yet made, or the channel is full and unheard. */
  lemma RequestSticksExactly(par: nat, s: State, r: nat)
    requires Reachable(par, s) && r in s.requests && s.requests[r].at.Signalling?
    ensures CanGo(s, r, Evaluate)
    ensures GoStep(s, r, Evaluate).requests[r].at.Stuck? <==> MarkedNow(s, s.requests[r].end)
    ensures !CanReturn(par, GoStep(s, r, Evaluate), r) <==>
      MarkedNow(s, s.requests[r].end) || Unheard(s, s.requests[r].end)
  {
    ReachableOk(par, s);
    assert SawDrained(s.ends, s.requests[r].end);
    var s' := GoStep(s, r, Evaluate);
    Advance(par, s, Go(r, Evaluate));
    NeutralUnheard(s, r, Evaluate, s.requests[r].end);
    if s'.requests[r].at.Stuck? {
      forall run | Legal(par, s', run) ensures !Returns(par, s', run, r) {
        StuckRun(par, s', r, run);
      }
    } else {
      PostingReturnsExactly(par, s', r);
    }
  }

  /** Blocked on a nil channel, or on a full one that is unheard. */
  ghost predicate Blocked(s: State, r: nat) {
    r in s.requests && (s.requests[r].at.Stuck? || (s.requests[r].at.Posting? && Unheard(s, s.requests[r].end)))
  }

  /** Whatever happens later, such a request stays blocked, its token is never returned and the
      in-flight count reported to the autoscaler never falls to zero again. */
  lemma BlockedIsForever(par: nat, s: State, r: nat, run: seq<Action>)
    requires Reachable(par, s) && Blocked(s, r) && Legal(par, s, run)
    ensures var t := Exec(par, s, run); var e := s.requests[r].end;
      && r in t.requests && t.requests[r].at == s.requests[r].at && r in TokenHolders(t, e)
      && e in t.ends && t.ends[e].tokens < par && 1 <= t.metric
  {
    ReachableOk(par, s);
    var e := s.requests[r].end;
    if s.requests[r].at.Stuck? {
      StuckRun(par, s, r, run);
    } else {
      UnheardRun(par, s, run, r, e);
    }
    CountsRun(par, s, run);
    var t := Exec(par, s, run);
    assert Rooted(t.ends, t.requests[r]);
    assert EndOk(par, t.requests, e, t.ends[e]);
    assert r in TokenHolders(t, e) && r in Unanswered(t);
    AtLeastOne(TokenHolders(t, e), r);
    AtLeastOne(Unanswered(t), r);
  }

  lemma AtLeastOne<T>(s: set<T>, x: T)
    requires x in s
    ensures 1 <= |s|
  {
  }

  // --- Both happen -------------------------------------------------------------------------------------

  const ASKED := [Info("a", "a")]

  /** One endpoint and one request that picked it. */
  function Scene(x: End, p: Phase, depth: int, h: Holder): State {
    State(map[0 := x], 1, [0], 1, map[0 := p], map[], [], depth, 1, {}, h)
  }

  function At(p: Place, last: bool): Phase {
    Phase(p, 0, LB_RETRIES, last)
  }

  lemma SceneListed(par: nat)
    ensures Reachable(par, Scene(NewEnd(par, ASKED[0]), ARRIVED, 0, Free))
  {
    assert Leads(par, EMPTY, [], EMPTY);
    Advance(par, EMPTY, AddLock(ASKED));
    var s1 := Apply(par, EMPTY, AddLock(ASKED));
    assert s1 == State(map[0 := NewEnd(par, ASKED[0])], 1, [0], 1, map[], map[], [], 0, 0, {}, Waking);
    Advance(par, s1, AddUnlock);
    var s2 := Apply(par, s1, AddUnlock);
    Advance(par, s2, Arrive(0));
    assert Apply(par, s2, Arrive(0)) == Scene(NewEnd(par, ASKED[0]), ARRIVED, 0, Free);
  }

  /** A request move inside the scene. */
  lemma SceneGo(par: nat, x: End, p: Phase, depth: int, h: Holder, m: Move)
    requires Reachable(par, Scene(x, p, depth, h)) && CanGo(Scene(x, p, depth, h), 0, m)
    requires p.end == 0 && !m.Enqueue? && !m.Receive? && !m.Finish?
    ensures Reachable(par, Scene(Touched(x, m), Next(Scene(x, p, depth, h), 0, p, m), depth + Depth(m), h))
  {
    var s := Scene(x, p, depth, h);
    Advance(par, s, Go(0, m));
    assert GoStep(s, 0, m) == Scene(Touched(x, m), Next(s, 0, p, m), depth + Depth(m), h);
  }

  lemma ScenePicked(par: nat)
    ensures Reachable(par, Scene(NewEnd(par, ASKED[0]), At(Picked, false), 1, Free))
  {
    var x := NewEnd(par, ASKED[0]);
    SceneListed(par);
    SceneGo(par, x, ARRIVED, 0, Free, Load);
    SceneGo(par, x, Phase(Admitted, 0, 0, false), 0, Free, Enter);
    SceneGo(par, x, At(Balancing, false), 1, Free, Pick(0));
  }

  lemma SceneRunning(par: nat)
    requires par > 0
    ensures Reachable(par, Scene(End("a", "a", par - 1, 1, false, None), At(Running, false), 0, Free))
  {
    ScenePicked(par);
    SceneGo(par, NewEnd(par, ASKED[0]), At(Picked, false), 1, Free, TakeToken);
    SceneGo(par, End("a", "a", par - 1, 0, false, None), At(Holding, false), 1, Free, Count);
    SceneGo(par, End("a", "a", par - 1, 1, false, None), At(Counted, false), 1, Free, Leave);
  }

  /** A drain starts while the request runs. */
  lemma SceneMarked(par: nat)
    requires par > 0
    ensures var x := End("a", "a", par - 1, 1, true, None);
      Reachable(par, Scene(x, At(Running, false), 0, Marked(0, Drain(ASKED, [], []))))
  {
    var x := End("a", "a", par - 1, 1, false, None);
    var s0 := Scene(x, At(Running, false), 0, Free);
    SceneRunning(par);
    Advance(par, s0, DrainLock(ASKED));
    assert HasId(ASKED, "a") by { assert ASKED[0].id == "a"; }
    assert Matching(s0.ends, [0], ASKED) == [0];
    var s1 := Scene(x, At(Running, false), 0, Holder.Draining(Drain(ASKED, [0], [])));
    assert Apply(par, s0, DrainLock(ASKED)) == s1;
    Advance(par, s1, Mark);
    assert Apply(par, s1, Mark) == Scene(x.(drained := true), At(Running, false), 0, Marked(0, Drain(ASKED, [], [])));
  }

  /** The request signals between the drain's look at InFlight and the drain's own signal, and the
      metadata lock is never free again. */
  lemma DrainHangs(par: nat)
    requires par > 0
    ensures exists s :: Reachable(par, s) && s.holder.Filling? && !CanUnlock(par, s)
  {
    var d := Drain(ASKED, [], []);
    var d' := Drain(ASKED, [], [0]);
    var x := End("a", "a", par - 1, 1, true, None);
    SceneMarked(par);
    var s1 := Scene(x, At(Running, false), 0, Marked(0, d));
    Advance(par, s1, Open);
    var y := x.(callback := Some(false));
    assert d.barriers + [0] == [0];
    assert Apply(par, s1, Open) == Scene(y, At(Running, false), 0, Opened(0, d'));
    SceneGo(par, y, At(Running, false), 0, Opened(0, d'), Release);
    var z := y.(inFlight := 0);
    var s2 := Scene(z, At(Releasing, true), 0, Opened(0, d'));
    Advance(par, s2, Probe);
    assert Apply(par, s2, Probe) == Scene(z, At(Releasing, true), 0, Filling(0, d'));
    HangsThen(par, z, d');
  }

  lemma HangsThen(par: nat, z: End, d: Drain)
    requires z.drained && z.callback == Some(false)
    requires Reachable(par, Scene(z, At(Releasing, true), 0, Filling(0, d)))
    ensures exists s :: Reachable(par, s) && s.holder.Filling? && !CanUnlock(par, s)
  {
    SceneGo(par, z, At(Releasing, true), 0, Filling(0, d), CheckDrained);
    SceneGo(par, z, At(Signalling, true), 0, Filling(0, d), Evaluate);
    SceneGo(par, z, At(Posting, true), 0, Filling(0, d), Signal);
    var s := Scene(z.(callback := Some(true)), At(Returning, true), 0, Filling(0, d));
    DrainUnlocksExactly(par, s);
  }

  /** A request that ends between the drain's flag and the drain's channel sends on a nil channel. */
  lemma RequestSticks(par: nat)
    requires par > 0
    ensures exists s :: Reachable(par, s) && 0 in s.requests && s.requests[0].at.Stuck?
  {
    var h := Marked(0, Drain(ASKED, [], []));
    var x := End("a", "a", par - 1, 1, true, None);
    var y := x.(inFlight := 0);
    SceneMarked(par);
    SceneGo(par, x, At(Running, false), 0, h, Release);
    SceneGo(par, y, At(Releasing, true), 0, h, CheckDrained);
    SceneGo(par, y, At(Signalling, true), 0, h, Evaluate);
    assert Scene(y, At(Stuck, true), 0, h).requests[0].at.Stuck?;
  }

  // --- Two requests and a drain that has come and gone -----------------------------------------------

  /** Two requests have picked the endpoint. */
  function Pair(x: End, depth: int, list: seq<nat>, barred: set<nat>, h: Holder): State {
    var picked := At(Picked, false);
    State(map[0 := x], 1, list, |list|, map[0 := picked, 1 := picked], map[], [], depth, 2, barred, h)
  }

  lemma PairPicked(par: nat)
    ensures Reachable(par, Pair(NewEnd(par, ASKED[0]), 2, [0], {}, Free))
  {
    ScenePicked(par);
    var x := NewEnd(par, ASKED[0]);
    var s0 := Scene(x, At(Picked, false), 1, Free);
    Advance(par, s0, Arrive(1));
    var s1 := Apply(par, s0, Arrive(1));
    AloofStep(par, s1, 1, Load);
    var s2 := s1.(requests := s1.requests[1 := ARRIVED.(at := Admitted)]);
    AloofStep(par, s2, 1, Enter);
    var s3 := s2.(requests := s2.requests[1 := At(Balancing, false)], queueDepth := 2);
    AloofStep(par, s3, 1, Pick(0));
    assert s3.requests[1 := At(Picked, false)] == map[0 := At(Picked, false), 1 := At(Picked, false)];
  }

  lemma AloofStep(par: nat, s: State, r: nat, m: Move)
    requires Reachable(par, s) && CanGo(s, r, m) && Aloof(m)
    ensures var p := Next(s, r, s.requests[r], m);
      Reachable(par, s.(requests := s.requests[r := p], queueDepth := s.queueDepth + Depth(m)))
  {
    var run :| Leads(par, EMPTY, run, s);
    AloofRun(par, EMPTY, run, s, r, m);
  }

  /** The drain flags the endpoint, finds it idle and fills its channel. */
  lemma PairFilled(par: nat)
    ensures var x := End("a", "a", par, 0, true, Some(true));
      Reachable(par, Pair(x, 2, [0], {}, Holder.Draining(Drain(ASKED, [], [0]))))
  {
    PairPicked(par);
    var x := NewEnd(par, ASKED[0]);
    var s0 := Pair(x, 2, [0], {}, Free);
    Advance(par, s0, DrainLock(ASKED));
    assert HasId(ASKED, "a") by { assert ASKED[0].id == "a"; }
    assert Matching(s0.ends, [0], ASKED) == [0];
    var s1 := Pair(x, 2, [0], {}, Holder.Draining(Drain(ASKED, [0], [])));
    Advance(par, s1, Mark);
    var s2 := Pair(x.(drained := true), 2, [0], {}, Marked(0, Drain(ASKED, [], [])));
    assert Apply(par, s1, Mark) == s2;
    PairOpened(par, x.(drained := true));
  }

  lemma PairOpened(par: nat, x: End)
    requires Reachable(par, Pair(x, 2, [0], {}, Marked(0, Drain(ASKED, [], [])))) && x.inFlight == 0
    ensures Reachable(par, Pair(x.(callback := Some(true)), 2, [0], {}, Holder.Draining(Drain(ASKED, [], [0]))))
  {
    var s := Pair(x, 2, [0], {}, Marked(0, Drain(ASKED, [], [])));
    Advance(par, s, Open);
    var d := Drain(ASKED, [], [0]);
    assert [] + [0] == [0];
    var s1 := Pair(x.(callback := Some(false)), 2, [0], {}, Opened(0, d));
    assert Apply(par, s, Open) == s1;
    Advance(par, s1, Probe);
    var s2 := Pair(x.(callback := Some(false)), 2, [0], {}, Filling(0, d));
    assert Apply(par, s1, Probe) == s2;
    Advance(par, s2, Fill);
    assert Apply(par, s2, Fill) == Pair(x.(callback := Some(true)), 2, [0], {}, Holder.Draining(d));
  }

  /** The drain takes the endpoint off the list, receives and is done. */
  lemma PairDrained(par: nat)
    ensures Reachable(par, Pair(End("a", "a", par, 0, true, Some(false)), 2, [], {}, Free))
  {
    PairFilled(par);
    var x := End("a", "a", par, 0, true, Some(true));
    var s0 := Pair(x, 2, [0], {}, Holder.Draining(Drain(ASKED, [], [0])));
    Advance(par, s0, DrainUnlock);
    assert RemoveUrl(s0.ends, [0], "a") == [];
    assert RemoveUrls(s0.ends, [0], ASKED) == [] by { assert ASKED[1..] == []; }
    assert {} + (set e | e in [0]) == {0};
    var s1 := Pair(x, 2, [], {0}, Free);
    assert Apply(par, s0, DrainUnlock) == s1;
    Advance(par, s1, Await(0));
    assert Apply(par, s1, Await(0)) == Pair(x.(callback := Some(false)), 2, [], {}, Free);
  }

  /** A request that still takes its token from a drained endpoint, alone there, ends up signalling. */
  lemma LastSignals(par: nat, s: State, r: nat, p: Phase, x: End)
    requires Reachable(par, Moved(s, r, p, p.end, x, 0)) && p.at == Picked
    requires x.drained && x.inFlight == 0 && x.tokens > 0
    ensures Reachable(par, Moved(s, r, p.(at := Signalling, last := true), p.end, x.(tokens := x.tokens - 1), -1))
  {
    var run :| Leads(par, EMPTY, run, Moved(s, r, p, p.end, x, 0));
    UseRun(par, EMPTY, run, s, r, p, x);
    var run' := run + [Go(r, TakeToken)] + [Go(r, Count)] + [Go(r, Leave)];
    var t := s.(queueDepth := s.queueDepth - 1);
    var p' := p.(at := Running);
    assert Moved(t, r, p', p.end, Used(x), 0) == Moved(s, r, p', p.end, Used(x), -1);
    ReleaseRun(par, EMPTY, run', t, r, p', Used(x));
    assert Moved(t, r, Released(p', Used(x)), p.end, x.(tokens := x.tokens - 1), 0) ==
      Moved(s, r, p.(at := Signalling, last := true), p.end, x.(tokens := x.tokens - 1), -1);
  }

  /** One of the two is served and refills the channel that nobody reads any more. */
  lemma PairRefilled(par: nat)
    requires par > 0
    ensures var x := End("a", "a", par, 0, true, Some(true));
      Reachable(par, Moved(Pair(x, 2, [], {}, Free), 0, Phase(Leaving, 0, LB_RETRIES, true), 0, x, -1))
  {
    PairDrained(par);
    var x := End("a", "a", par, 0, true, Some(false));
    var s := Pair(x, 2, [], {}, Free);
    MovedSame(s, 0, At(Picked, false), 0);
    assert s.requests[0 := At(Picked, false)] == s.requests;
    LastSignals(par, s, 0, At(Picked, false), x);
    var y := x.(tokens := par - 1);
    var t := s.(queueDepth := 1);
    assert Moved(t, 0, At(Signalling, true), 0, y, 0) == Moved(s, 0, At(Signalling, true), 0, y, -1);
    SignalReached(par, t, 0, At(Signalling, true), y);
    var z := End("a", "a", par, 0, true, Some(true));
    assert Moved(t, 0, At(Leaving, true), 0, z, 0) == Moved(Pair(z, 2, [], {}, Free), 0, At(Leaving, true), 0, z, -1);
  }

  lemma SignalReached(par: nat, s: State, r: nat, p: Phase, x: End)
    requires Reachable(par, Moved(s, r, p, p.end, x, 0)) && p.at == Signalling && x.callback == Some(false)
    ensures Reachable(par, Moved(s, r, p.(at := Leaving), p.end, x.(callback := Some(true), tokens := x.tokens + 1), 0))
  {
    var run :| Leads(par, EMPTY, run, Moved(s, r, p, p.end, x, 0));
    var run' := SignalRun(par, EMPTY, run, s, r, p, x);
  }

  ghost predicate HangsUnmarked(par: nat, s: State, r: nat) {
    && s.holder == Free && r in s.requests && s.requests[r].at.Signalling? && !MarkedNow(s, s.requests[r].end)
    && !CanReturn(par, GoStep(s, r, Evaluate), r)
  }

  /** The other one then signals too, with the lock free and no drain under way, and blocks for good. */
  lemma RequestHangs(par: nat)
    requires par > 0
    ensures exists s :: Reachable(par, s) && HangsUnmarked(par, s, 1)
  {
    PairRefilled(par);
    var x := End("a", "a", par, 0, true, Some(true));
    var s := Moved(Pair(x, 2, [], {}, Free), 0, At(Leaving, true), 0, x, -1);
    MovedSame(s, 1, At(Picked, false), 0);
    assert s.requests[1 := At(Picked, false)] == s.requests;
    LastSignals(par, s, 1, At(Picked, false), x);
    var t := Moved(s, 1, At(Signalling, true), 0, x.(tokens := par - 1), -1);
    RequestSticksExactly(par, t, 1);
    assert HangsUnmarked(par, t, 1);
  }
}
