/** Which requests can still be answered. A request is hopeless behind a metadata lock that is never freed,
    on a nil draining channel, or bound to signal on a full one that nobody will receive from. */
module Completion {
  import opened Options
  import opened Basics
  import opened Admission
  import opened AdmissionBounds
  import opened WakeUps
  import opened Draining
  import opened Reachability
  import opened MetadataLock
  import opened DrainBlocking

  /** Some continuation, in which clients may give up waiting, answers the request. */
  ghost predicate CanFinish(par: nat, s: State, r: nat) {
    exists run :: Finishes(par, s, run, r)
  }

  predicate Finishes(par: nat, s: State, run: seq<Action>, r: nat) {
    Legal(par, s, run) && r in Exec(par, s, run).requests && Exec(par, s, run).requests[r].at.Done?
  }

  lemma FinishLater(par: nat, s: State, a: Action, r: nat)
    requires Enabled(s, a) && CanFinish(par, Apply(par, s, a), r)
    ensures CanFinish(par, s, r)
  {
    var run :| Finishes(par, Apply(par, s, a), run, r);
    assert ([a] + run)[1..] == run;
    assert Finishes(par, s, [a] + run, r);
  }

  lemma {:induction false} RunThenFinish(par: nat, s: State, run: seq<Action>, r: nat)
    requires Legal(par, s, run) && CanFinish(par, Exec(par, s, run), r)
    ensures CanFinish(par, s, r)
    decreases |run|
  {
    if run != [] {
      RunThenFinish(par, Apply(par, s, run[0]), run[1..], r);
      FinishLater(par, s, run[0], r);
    }
  }

  predicate StandsAt(s: State, r: nat, at: Place) {
    r in s.requests && s.requests[r].at == at
  }

  // --- The last steps --------------------------------------------------------------------------------

  lemma LeavingFinishes(par: nat, s: State, r: nat)
    requires StandsAt(s, r, Leaving)
    ensures CanFinish(par, s, r)
  {
    assert Finishes(par, GoStep(s, r, Finish), [], r);
    FinishLater(par, s, Go(r, Finish), r);
  }

  lemma ReturningFinishes(par: nat, s: State, r: nat)
    requires StandsAt(s, r, Returning)
    ensures CanFinish(par, s, r)
  {
    LeavingFinishes(par, GoStep(s, r, GiveToken), r);
    FinishLater(par, s, Go(r, GiveToken), r);
  }

  lemma ReturnedFinishes(par: nat, s: State, r: nat)
    requires CanReturn(par, s, r)
    ensures CanFinish(par, s, r)
  {
    var run :| Returns(par, s, run, r);
    ReturningFinishes(par, Exec(par, s, run), r);
    RunThenFinish(par, s, run, r);
  }

  // --- Before the load balancer ----------------------------------------------------------------------

  lemma {:induction false} BalancingFinishes(par: nat, s: State, r: nat)
    requires StandsAt(s, r, Balancing) && (s.holder == Free || s.requests[r].tries == 0)
    ensures CanFinish(par, s, r)
    decreases s.requests[r].tries
  {
    if s.requests[r].tries == 0 {
      LeavingFinishes(par, GoStep(s, r, Exhaust), r);
      FinishLater(par, s, Go(r, Exhaust), r);
    } else if s.list == [] {
      LeavingFinishes(par, GoStep(s, r, PickNil), r);
      FinishLater(par, s, Go(r, PickNil), r);
    } else {
      var s1 := GoStep(s, r, Pick(s.list[0]));
      BalancingFinishes(par, GoStep(s1, r, TimeOut), r);
      FinishLater(par, s1, Go(r, TimeOut), r);
      FinishLater(par, s, Go(r, Pick(s.list[0])), r);
    }
  }

  predicate HasWon(s: State, r: nat) {
    r in s.channels && s.channels[r].buffer == [Success]
  }

  lemma CanceledFinishes(par: nat, s: State, r: nat)
    requires StandsAt(s, r, Waiting) && r in s.channels && s.channels[r].buffer == [Canceled]
    ensures CanFinish(par, s, r)
  {
    LeavingFinishes(par, GoStep(s, r, Receive), r);
    FinishLater(par, s, Go(r, Receive), r);
  }

  /** A client that gives up is answered unless a success is already in its channel. */
  lemma WaitingFinishes(par: nat, s: State, r: nat)
    requires WakeOk(s) && StandsAt(s, r, Waiting) && !HasWon(s, r)
    ensures CanFinish(par, s, r)
  {
    assert ChanOk(s.requests[r].at, s.channels[r]);
    var buffer := s.channels[r].buffer;
    if buffer == [] {
      CanceledFinishes(par, Apply(par, s, Cancel(r)), r);
      FinishLater(par, s, Cancel(r), r);
    } else {
      assert buffer == [buffer[0]] && buffer[0] != Success;
      assert buffer[0].Canceled?;
      CanceledFinishes(par, s, r);
    }
  }

  predicate Early(p: Phase) {
    p.at.Arrived? || p.at.Cold? || p.at.Admitted? || p.at.Balancing?
  }

  lemma FreeFinishes(par: nat, s: State, r: nat)
    requires WakeOk(s) && s.holder == Free && r in s.requests && Early(s.requests[r])
    ensures CanFinish(par, s, r)
  {
    match s.requests[r].at
    case Balancing => BalancingFinishes(par, s, r);
    case Admitted => AdmittedFinishes(par, s, r);
    case Cold => ColdFinishes(par, s, r);
    case Arrived =>
      var s' := GoStep(s, r, Load);
      WakeStep(par, s, Go(r, Load));
      if s.active == 0 {
        ColdFinishes(par, s', r);
      } else {
        AdmittedFinishes(par, s', r);
      }
      FinishLater(par, s, Go(r, Load), r);
    case _ =>
  }

  lemma AdmittedFinishes(par: nat, s: State, r: nat)
    requires StandsAt(s, r, Admitted) && s.holder == Free
    ensures CanFinish(par, s, r)
  {
    BalancingFinishes(par, GoStep(s, r, Enter), r);
    FinishLater(par, s, Go(r, Enter), r);
  }

  lemma ColdFinishes(par: nat, s: State, r: nat)
    requires WakeOk(s) && StandsAt(s, r, Cold) && s.holder == Free
    ensures CanFinish(par, s, r)
  {
    WakeStep(par, s, Go(r, Enqueue));
    WaitingFinishes(par, GoStep(s, r, Enqueue), r);
    FinishLater(par, s, Go(r, Enqueue), r);
  }

  lemma {:induction false} SparedRun(par: nat, s: State, run: seq<Action>, r: nat)
    requires AllOk(par, s) && Legal(par, s, run) && r in s.requests
    requires forall i :: 0 <= i < |run| ==> Spares(run[i], Some(r))
    ensures AllOk(par, Exec(par, s, run))
    ensures r in Exec(par, s, run).requests && Exec(par, s, run).requests[r] == s.requests[r]
    decreases |run|
  {
    if run != [] {
      AllStep(par, s, run[0]);
      SparedStep(par, s, run[0], r);
      SparedRun(par, Apply(par, s, run[0]), run[1..], r);
    }
  }

  lemma SparedStep(par: nat, s: State, a: Action, r: nat)
    requires Enabled(s, a) && r in s.requests && Spares(a, Some(r))
    ensures r in Apply(par, s, a).requests && Apply(par, s, a).requests[r] == s.requests[r]
  {
  }

  lemma EarlyFinishes(par: nat, s: State, r: nat)
    requires AllOk(par, s) && !Doomed(s) && r in s.requests && Early(s.requests[r])
    ensures CanFinish(par, s, r)
  {
    OthersUnlock(par, s, Some(r));
    var run :| UnlocksPast(par, s, run, Some(r));
    SparedRun(par, s, run, r);
    FreeFinishes(par, Exec(par, s, run), r);
    RunThenFinish(par, s, run, r);
  }

  // --- Signals -----------------------------------------------------------------------------------------

  /** With the channel made and empty, a request gets through by itself. */
  lemma SignallingEmpty(par: nat, s: State, r: nat)
    requires StandsAt(s, r, Signalling) && SawChannel(s.ends, s.requests[r].end)
    requires s.ends[s.requests[r].end].callback == Some(false)
    ensures CanFinish(par, s, r)
  {
    var s' := GoStep(s, r, Evaluate);
    EmptyReturns(par, s', r, s.requests[r].end);
    ReturnedFinishes(par, s', r);
    FinishLater(par, s, Go(r, Evaluate), r);
  }

  lemma SignallingFinishes(par: nat, s: State, r: nat)
    requires Reachable(par, s) && StandsAt(s, r, Signalling) && !Unheard(s, s.requests[r].end)
    ensures CanFinish(par, s, r)
  {
    ReachableOk(par, s);
    var e := s.requests[r].end;
    assert SawDrained(s.ends, e);
    if MarkedNow(s, e) {
      SignallingEmpty(par, Apply(par, s, Open), r);
      FinishLater(par, s, Open, r);
    } else {
      RequestSticksExactly(par, s, r);
      ReturnedFinishes(par, GoStep(s, r, Evaluate), r);
      FinishLater(par, s, Go(r, Evaluate), r);
    }
  }

  lemma ReleasingFinishes(par: nat, s: State, r: nat)
    requires Reachable(par, s) && StandsAt(s, r, Releasing)
    requires !(s.requests[r].last && Unheard(s, s.requests[r].end))
    ensures CanFinish(par, s, r)
  {
    var s' := GoStep(s, r, CheckDrained);
    if s'.requests[r].at.Returning? {
      ReturningFinishes(par, s', r);
    } else {
      NeutralUnheard(s, r, CheckDrained, s.requests[r].end);
      Advance(par, s, Go(r, CheckDrained));
      SignallingFinishes(par, s', r);
    }
    FinishLater(par, s, Go(r, CheckDrained), r);
  }

  // --- Requests in flight ------------------------------------------------------------------------------

  predicate Flies(s: State, r: nat, e: nat) {
    r in s.requests && InFlight(s.requests[r].at) && s.requests[r].end == e && e in s.ends
  }

  lemma LeaveFirst(par: nat, s: State, r: nat, e: nat)
    requires StandsAt(s, r, Counted) && CanFinish(par, GoStep(s, r, Leave), r)
    ensures CanFinish(par, s, r)
  {
    FinishLater(par, s, Go(r, Leave), r);
  }

  /** Alone, if the endpoint asks for no signal or has an empty channel for it. */
  lemma RunningAlone(par: nat, s: State, r: nat, e: nat)
    requires StandsAt(s, r, Running) && s.requests[r].end == e && e in s.ends
    requires !s.ends[e].drained || s.ends[e].callback == Some(false)
    ensures CanFinish(par, s, r)
  {
    var s1 := GoStep(s, r, Release);
    var s2 := GoStep(s1, r, CheckDrained);
    if s2.requests[r].at.Returning? {
      ReturningFinishes(par, s2, r);
    } else {
      SignallingEmpty(par, s2, r);
    }
    FinishLater(par, s1, Go(r, CheckDrained), r);
    FinishLater(par, s, Go(r, Release), r);
  }

  lemma FlyingAlone(par: nat, s: State, r: nat, e: nat)
    requires Flies(s, r, e) && (!s.ends[e].drained || s.ends[e].callback == Some(false))
    ensures CanFinish(par, s, r)
  {
    if s.requests[r].at.Running? {
      RunningAlone(par, s, r, e);
    } else {
      RunningAlone(par, GoStep(s, r, Leave), r, e);
      LeaveFirst(par, s, r, e);
    }
  }

  lemma FlyingBarred(par: nat, s: State, r: nat, e: nat)
    requires Flies(s, r, e) && s.ends[e].callback == Some(true) && e in s.barred
    ensures CanFinish(par, s, r)
  {
    FlyingAlone(par, Apply(par, s, Await(e)), r, e);
    FinishLater(par, s, Await(e), r);
  }

  /** If the drain of a full channel gets to wait, the request in flight is heard after all. */
  lemma {:induction false} FlyingAfter(par: nat, s: State, run: seq<Action>, r: nat, e: nat)
    requires AllOk(par, s) && FullAt(s, e) && e in Barriers(s) && Flies(s, r, e)
    requires UnlocksPast(par, s, run, Some(r))
    ensures CanFinish(par, s, r)
    decreases |run|
  {
    var a := run[0];
    var s' := Apply(par, s, a);
    SparedStep(par, s, a, r);
    BarrierStep(par, s, a, e);
    AllStep(par, s, a);
    if a.DrainUnlock? {
      FlyingBarred(par, s', r, e);
    } else {
      FlyingAfter(par, s', run[1..], r, e);
    }
    FinishLater(par, s, a, r);
  }

  lemma FlyingFinishes(par: nat, s: State, r: nat, e: nat)
    requires AllOk(par, s) && Flies(s, r, e) && !Unheard(s, e)
    ensures CanFinish(par, s, r)
  {
    if !s.ends[e].drained {
      FlyingAlone(par, s, r, e);
    } else if MarkedNow(s, e) {
      FlyingAlone(par, Apply(par, s, Open), r, e);
      FinishLater(par, s, Open, r);
    } else {
      FullOrEmpty(s.ends[e].callback);
      if s.ends[e].callback == Some(false) {
        FlyingAlone(par, s, r, e);
      } else if e in s.barred {
        FlyingBarred(par, s, r, e);
      } else {
        OthersUnlock(par, s, Some(r));
        var run :| UnlocksPast(par, s, run, Some(r));
        FlyingAfter(par, s, run, r, e);
      }
    }
  }

  /** Being counted takes away nobody's hope. */
  lemma CountKeepsHope(par: nat, s: State, r: nat, e: nat)
    requires AllOk(par, s) && StandsAt(s, r, Holding) && s.requests[r].end == e && e in s.ends && !Unheard(s, e)
    ensures !Unheard(GoStep(s, r, Count), e)
  {
    var s' := GoStep(s, r, Count);
    assert EndOk(par, s.requests, e, s.ends[e]);
    assert s'.holder == s.holder && s'.barred == s.barred;
    CountedElsewhere(s, r, e);
  }

  /** A request counted on one endpoint does not touch another, and keeps its own from looking idle. */
  lemma CountedElsewhere(s: State, r: nat, e: nat)
    requires StandsAt(s, r, Holding) && s.requests[r].end == e && e in s.ends && s.ends[e].inFlight >= 0
    ensures FullAt(GoStep(s, r, Count), e) <==> FullAt(s, e)
    ensures Doomed(GoStep(s, r, Count)) ==> Doomed(s)
  {
    var s' := GoStep(s, r, Count);
    if Closing(s') {
      var d := s.holder.end;
      assert d != e && s'.ends[d] == s.ends[d];
      IdleElsewhere(s, s', r, d);
    }
  }

  lemma IdleElsewhere(s: State, s': State, r: nat, d: nat)
    requires d in s.ends && d in s'.ends && s'.ends[d] == s.ends[d] && r in s.requests && r in s'.requests
    requires s'.requests == s.requests[r := s'.requests[r]] && s.requests[r].end != d && s'.requests[r].end != d
    ensures Idle(s', d) <==> Idle(s, d)
  {
    assert forall q :: q in s.requests && q != r ==> s'.requests[q] == s.requests[q];
  }

  lemma HoldingFinishes(par: nat, s: State, r: nat)
    requires AllOk(par, s) && StandsAt(s, r, Holding) && s.requests[r].end in s.ends && !Unheard(s, s.requests[r].end)
    ensures CanFinish(par, s, r)
  {
    var e := s.requests[r].end;
    CountKeepsHope(par, s, r, e);
    AllStep(par, s, Go(r, Count));
    FlyingFinishes(par, GoStep(s, r, Count), r, e);
    FinishLater(par, s, Go(r, Count), r);
  }

  // --- Requests waiting for a token --------------------------------------------------------------------

  ghost predicate TriesOk(s: State) {
    forall r :: r in s.requests && s.requests[r].at.Picked? ==> s.requests[r].tries > 0
  }

  lemma TriesStep(par: nat, s: State, a: Action)
    requires TriesOk(s) && Enabled(s, a)
    ensures TriesOk(Apply(par, s, a))
  {
  }

  lemma {:induction false} TriesRun(par: nat, s: State, run: seq<Action>)
    requires TriesOk(s) && Legal(par, s, run)
    ensures TriesOk(Exec(par, s, run))
    decreases |run|
  {
    if run != [] {
      TriesStep(par, s, run[0]);
      TriesRun(par, Apply(par, s, run[0]), run[1..]);
    }
  }

  lemma ReachableTries(par: nat, s: State)
    requires Reachable(par, s)
    ensures TriesOk(s)
  {
    var run :| Leads(par, EMPTY, run, s);
    TriesRun(par, EMPTY, run);
  }

  /** The drain at work is about to look at InFlight of an endpoint that could otherwise doom it. */
  predicate Verging(s: State, d: nat) {
    OpenAt(s, d) && FullAt(s, d) && s.ends[d].inFlight == 0
  }

  lemma TokenFinishes(par: nat, s: State, r: nat, d: nat)
    requires AllOk(par, s) && Verging(s, d) && r in s.requests && Wants(s.requests[r], d) && s.ends[d].tokens > 0
    ensures CanFinish(par, s, r)
  {
    AllStep(par, s, Go(r, TakeToken));
    TakenIsHeard(s, r, d);
    HoldingFinishes(par, GoStep(s, r, TakeToken), r);
    FinishLater(par, s, Go(r, TakeToken), r);
  }

  lemma TakenIsHeard(s: State, r: nat, d: nat)
    requires OpenAt(s, d) && d in Barriers(s) && r in s.requests && Wants(s.requests[r], d) && s.ends[d].tokens > 0
    ensures var s' := GoStep(s, r, TakeToken); StandsAt(s', r, Holding) && s'.requests[r].end == d && !Unheard(s', d)
  {
    var s' := GoStep(s, r, TakeToken);
    assert s'.holder == s.holder;
    assert Holds(s'.requests[r], d) && !Idle(s', d);
  }

  lemma ReturnerFinishes(par: nat, s: State, q: nat, r: nat, d: nat)
    requires AllOk(par, s) && Verging(s, d) && r in s.requests && Wants(s.requests[r], d)
    requires StandsAt(s, q, Returning) && s.requests[q].end == d
    ensures CanFinish(par, s, r)
  {
    assert EndOk(par, s.requests, d, s.ends[d]);
    AllStep(par, s, Go(q, GiveToken));
    OthersMove(s, q, GiveToken, r, d);
    TokenFinishes(par, GoStep(s, q, GiveToken), r, d);
    FinishLater(par, s, Go(q, GiveToken), r);
  }

  lemma OthersMove(s: State, q: nat, m: Move, r: nat, d: nat)
    requires Verging(s, d) && r in s.requests && Wants(s.requests[r], d) && q != r && CanGo(s, q, m)
    requires s.requests[q].end == d && (m.GiveToken? || m.CheckDrained?)
    ensures var s' := GoStep(s, q, m);
      && Verging(s', d) && r in s'.requests && Wants(s'.requests[r], d)
      && s'.ends[d].tokens == s.ends[d].tokens + One(m.GiveToken?)
  {
    OpenKept(s, q, m, d);
    FullGo(s, q, m, d);
  }

  lemma FreerFinishes(par: nat, s: State, q: nat, r: nat, d: nat)
    requires AllOk(par, s) && Verging(s, d) && r in s.requests && Wants(s.requests[r], d)
    requires q in s.requests && Frees(s.requests[q], d)
    ensures CanFinish(par, s, r)
  {
    if s.requests[q].at.Returning? {
      ReturnerFinishes(par, s, q, r, d);
    } else {
      AllStep(par, s, Go(q, CheckDrained));
      OthersMove(s, q, CheckDrained, r, d);
      ReturnerFinishes(par, GoStep(s, q, CheckDrained), q, r, d);
      FinishLater(par, s, Go(q, CheckDrained), r);
    }
  }

  lemma WantsMatter(s: State, r: nat, d: nat)
    requires r in s.requests && s.requests[r].at.Picked? && s.requests[r].tries > 0 && HolderOk(s)
    requires !Doomed(s) && Doomed(GoStep(s, r, TimeOut)) && d == s.holder.end
    ensures Verging(s, d) && Wants(s.requests[r], d)
    ensures s.ends[d].tokens > 0 || exists q :: q in s.requests && Frees(s.requests[q], d)
  {
    var s' := GoStep(s, r, TimeOut);
    assert s'.ends == s.ends && s'.holder == s.holder && s'.barred == s.barred;
    assert !Idle(s, d) && Idle(s', d);
    assert forall q :: q in s.requests && q != r ==> s'.requests[q] == s.requests[q];
  }

  /** If giving up on the token would doom the drain at work, the token can be had instead. */
  lemma WantedFinishes(par: nat, s: State, r: nat)
    requires AllOk(par, s) && r in s.requests && s.requests[r].at.Picked? && s.requests[r].tries > 0
    requires !Doomed(s) && Doomed(GoStep(s, r, TimeOut))
    ensures CanFinish(par, s, r)
  {
    var d := s.holder.end;
    WantsMatter(s, r, d);
    if s.ends[d].tokens > 0 {
      TokenFinishes(par, s, r, d);
    } else {
      var q :| q in s.requests && Frees(s.requests[q], d);
      FreerFinishes(par, s, q, r, d);
    }
  }

  lemma PickedFinishes(par: nat, s: State, r: nat)
    requires AllOk(par, s) && r in s.requests && s.requests[r].at.Picked? && s.requests[r].tries > 0
    requires !Doomed(s) || s.requests[r].tries == 1
    ensures CanFinish(par, s, r)
  {
    var s' := GoStep(s, r, TimeOut);
    if s.requests[r].tries == 1 {
      BalancingFinishes(par, s', r);
      FinishLater(par, s, Go(r, TimeOut), r);
    } else if Doomed(s') {
      WantedFinishes(par, s, r);
    } else {
      AllStep(par, s, Go(r, TimeOut));
      EarlyFinishes(par, s', r);
      FinishLater(par, s, Go(r, TimeOut), r);
    }
  }

  // --- Requests that are never answered ----------------------------------------------------------------

  /** Nothing but the lock lets the request go on. */
  predicate Behind(s: State, r: nat) {
    && r in s.requests
    && match s.requests[r].at
       case Arrived => true
       case Cold => true
       case Admitted => true
       case Balancing => s.requests[r].tries > 0
       case Waiting => HasWon(s, r)
       case _ => false
  }

  lemma BehindStep(par: nat, s: State, a: Action, r: nat)
    requires Doomed(s) && Behind(s, r) && Enabled(s, a)
    ensures Behind(Apply(par, s, a), r)
  {
    if a.Go? && a.request != r {
      assert Apply(par, s, a).requests[r] == s.requests[r];
    }
  }

  lemma {:induction false} BehindRun(par: nat, s: State, run: seq<Action>, r: nat)
    requires AllOk(par, s) && Doomed(s) && Behind(s, r) && Legal(par, s, run)
    ensures Behind(Exec(par, s, run), r)
    decreases |run|
  {
    if run != [] {
      BehindStep(par, s, run[0], r);
      DoomedStep(par, s, run[0]);
      AllStep(par, s, run[0]);
      BehindRun(par, Apply(par, s, run[0]), run[1..], r);
    }
  }

  predicate InHand(at: Place) {
    at.Holding? || at.Counted? || at.Running?
  }

  /** Bound to signal on the endpoint, if it is alone there or past its release. */
  predicate Due(s: State, r: nat, e: nat) {
    && r in s.requests && s.requests[r].end == e
    && match s.requests[r].at
       case Holding => true
       case Counted => true
       case Running => true
       case Releasing => s.requests[r].last
       case Signalling => true
       case Posting => true
       case Stuck => true
       case _ => false
  }

  /** With one token per endpoint, whoever is in flight is alone. */
  lemma AloneInFlight(par: nat, s: State, r: nat, e: nat)
    requires CountsOk(par, s) && par <= 1 && Flies(s, r, e)
    ensures s.ends[e].inFlight == 1
  {
    assert EndOk(par, s.requests, e, s.ends[e]);
    assert r in Flying(s, e) && r in TokenHolders(s, e);
    FewerFly(s, e);
    AtLeastOne(Flying(s, e), r);
  }

  lemma DueStep(par: nat, s: State, a: Action, r: nat, e: nat)
    requires AllOk(par, s) && FullAt(s, e) && Due(s, r, e) && (InHand(s.requests[r].at) ==> par <= 1) && Enabled(s, a)
    ensures Due(Apply(par, s, a), r, e) && (InHand(Apply(par, s, a).requests[r].at) ==> par <= 1)
  {
    if a.Go? && a.request == r {
      if a.move.Release? {
        AloneInFlight(par, s, r, e);
      }
    } else {
      SparedStep(par, s, a, r);
    }
  }

  lemma {:induction false} DueRun(par: nat, s: State, run: seq<Action>, r: nat, e: nat)
    requires AllOk(par, s) && Unheard(s, e) && Due(s, r, e) && (InHand(s.requests[r].at) ==> par <= 1)
    requires Legal(par, s, run)
    ensures Due(Exec(par, s, run), r, e)
    decreases |run|
  {
    if run != [] {
      DueStep(par, s, run[0], r, e);
      UnheardStep(par, s, run[0], e);
      AllStep(par, s, run[0]);
      DueRun(par, Apply(par, s, run[0]), run[1..], r, e);
    }
  }

  // --- Exactly which ones ------------------------------------------------------------------------------

  /** Behind a doomed lock, on a nil channel, or bound to signal on a full one that is unheard. */
  ghost predicate Hopeless(s: State, r: nat) {
    && r in s.requests
    && var p := s.requests[r];
       || (Behind(s, r) && Doomed(s))
       || p.at.Stuck?
       || (Due(s, r, p.end) && Unheard(s, p.end))
       || (p.at.Picked? && p.tries > 1 && Doomed(s))
  }

  lemma HopefulFinishes(par: nat, s: State, r: nat)
    requires Reachable(par, s) && r in s.requests && !Hopeless(s, r)
    ensures CanFinish(par, s, r)
  {
    ReachableOk(par, s);
    ReachableTries(par, s);
    var e := s.requests[r].end;
    assert Rooted(s.ends, s.requests[r]);
    match s.requests[r].at
    case Arrived => EarlyFinishes(par, s, r);
    case Cold => EarlyFinishes(par, s, r);
    case Admitted => EarlyFinishes(par, s, r);
    case Waiting => WaiterFinishes(par, s, r);
    case Balancing =>
      if s.requests[r].tries == 0 {
        BalancingFinishes(par, s, r);
      } else {
        EarlyFinishes(par, s, r);
      }
    case Picked => PickedFinishes(par, s, r);
    case Holding => HoldingFinishes(par, s, r);
    case Counted => FlyingFinishes(par, s, r, e);
    case Running => FlyingFinishes(par, s, r, e);
    case Releasing => ReleasingFinishes(par, s, r);
    case Signalling => SignallingFinishes(par, s, r);
    case Posting =>
      PostingReturnsExactly(par, s, r);
      ReturnedFinishes(par, s, r);
    case Stuck =>
    case Returning => ReturningFinishes(par, s, r);
    case Leaving => LeavingFinishes(par, s, r);
    case Done => assert Finishes(par, s, [], r);
  }

  lemma WaiterFinishes(par: nat, s: State, r: nat)
    requires AllOk(par, s) && StandsAt(s, r, Waiting) && (HasWon(s, r) ==> !Doomed(s))
    ensures CanFinish(par, s, r)
  {
    if HasWon(s, r) {
      var s' := GoStep(s, r, Receive);
      NeutralUnheard(s, r, Receive, 0);
      AllStep(par, s, Go(r, Receive));
      EarlyFinishes(par, s', r);
      FinishLater(par, s, Go(r, Receive), r);
    } else {
      WaitingFinishes(par, s, r);
    }
  }

  lemma HopelessNever(par: nat, s: State, r: nat, run: seq<Action>)
    requires Reachable(par, s) && Hopeless(s, r) && !s.requests[r].at.Picked? && Legal(par, s, run)
    requires InHand(s.requests[r].at) ==> par <= 1
    ensures !Finishes(par, s, run, r)
  {
    ReachableOk(par, s);
    if Behind(s, r) {
      BehindRun(par, s, run, r);
    } else if s.requests[r].at.Stuck? {
      StuckRun(par, s, r, run);
    } else {
      DueRun(par, s, run, r, s.requests[r].end);
    }
  }

  /** In every reachable state a request is answered in some continuation exactly unless it is hopeless.
      For a request with its token in hand this is stated for the one token per endpoint of the code; for one
      that waits for a token behind a doomed lock, only that all others are answered. */
  lemma FinishesExactly(par: nat, s: State, r: nat)
    requires Reachable(par, s) && r in s.requests
    ensures !Hopeless(s, r) ==> CanFinish(par, s, r)
    ensures Hopeless(s, r) && !s.requests[r].at.Picked? && (InHand(s.requests[r].at) ==> par <= 1) ==>
      !CanFinish(par, s, r)
  {
    if !Hopeless(s, r) {
      HopefulFinishes(par, s, r);
    } else if !s.requests[r].at.Picked? && (InHand(s.requests[r].at) ==> par <= 1) {
      forall run | Legal(par, s, run) ensures !Finishes(par, s, run, r) {
        HopelessNever(par, s, r, run);
      }
    }
  }
}
