/** Which states can still give up the metadata lock: all but the ones in which a drain is bound to send
    on a draining channel that a request has filled before it. */
module MetadataLock {
  import opened Options
  import opened Basics
  import opened Admission
  import opened AdmissionBounds
  import opened WakeUps
  import opened Draining
  import opened Reachability

  /** Some continuation frees the lock. */
  ghost predicate CanUnlock(par: nat, s: State) {
    CanUnlockPast(par, s, None)
  }

  /** Some continuation frees the lock without a step of the given request, if any. */
  ghost predicate CanUnlockPast(par: nat, s: State, aside: Option<nat>) {
    exists run :: UnlocksPast(par, s, run, aside)
  }

  predicate UnlocksPast(par: nat, s: State, run: seq<Action>, aside: Option<nat>) {
    Legal(par, s, run) && Exec(par, s, run).holder == Free && forall i :: 0 <= i < |run| ==> Spares(run[i], aside)
  }

  predicate Unlocks(par: nat, s: State, run: seq<Action>) {
    UnlocksPast(par, s, run, None)
  }

  predicate Spares(a: Action, aside: Option<nat>) {
    aside.Some? && a.Go? ==> a.request != aside.value
  }

  /** A request that freeing the lock need not move. */
  predicate Bystander(p: Phase) {
    !p.at.Waiting? && !p.at.Picked? && !p.at.Holding? && !p.at.Returning? && !p.at.Releasing?
  }

  predicate Past(s: State, aside: Option<nat>) {
    aside.Some? ==> aside.value in s.requests && Bystander(s.requests[aside.value])
  }

  lemma UnlockLater(par: nat, s: State, a: Action, aside: Option<nat>)
    requires Enabled(s, a) && Spares(a, aside) && CanUnlockPast(par, Apply(par, s, a), aside)
    ensures CanUnlockPast(par, s, aside)
  {
    var run :| UnlocksPast(par, Apply(par, s, a), run, aside);
    assert ([a] + run)[1..] == run;
    assert UnlocksPast(par, s, [a] + run, aside);
  }

  lemma UnlockNow(par: nat, s: State, aside: Option<nat>)
    requires s.holder == Free && Past(s, aside)
    ensures CanUnlockPast(par, s, aside)
  {
    assert UnlocksPast(par, s, [], aside);
  }

  // --- Waking the queue ------------------------------------------------------------------------------

  lemma {:induction false} WakingUnlocks(par: nat, s: State, aside: Option<nat>)
    requires Past(s, aside)
    requires WakeOk(s) && s.holder == Waking
    ensures CanUnlockPast(par, s, aside)
    decreases |s.queue|, 0
  {
    if s.queue == [] || s.list == [] {
      UnlockNow(par, Apply(par, s, AddUnlock), aside);
      UnlockLater(par, s, AddUnlock, aside);
    } else {
      WakeStep(par, s, AddPop);
      SendingUnlocks(par, Apply(par, s, AddPop), aside);
      UnlockLater(par, s, AddPop, aside);
    }
  }

  lemma {:induction false} SendingUnlocks(par: nat, s: State, aside: Option<nat>)
    requires Past(s, aside)
    requires WakeOk(s) && s.holder.Sending?
    ensures CanUnlockPast(par, s, aside)
    decreases |s.queue|, |s.channels[s.holder.request].buffer| + 1
  {
    var r := s.holder.request;
    assert ChanOk(s.requests[r].at, s.channels[r]);
    if s.channels[r].buffer == [] {
      WakeStep(par, s, AddSend);
      WakingUnlocks(par, Apply(par, s, AddSend), aside);
      UnlockLater(par, s, AddSend, aside);
    } else {
      WakeStep(par, s, Go(r, Receive));
      SendingUnlocks(par, GoStep(s, r, Receive), aside);
      UnlockLater(par, s, Go(r, Receive), aside);
    }
  }

  // --- Finishing a drain -----------------------------------------------------------------------------

  predicate TodoOk(s: State) {
    forall e :: e in Under(s.holder).todo ==> e in s.ends
  }

  /** Left alone, a drain marks the rest of its endpoints and gives up the lock. */
  lemma {:induction false} DrainingUnlocks(par: nat, s: State, aside: Option<nat>)
    requires Past(s, aside)
    requires s.holder.Draining? && TodoOk(s)
    ensures CanUnlockPast(par, s, aside)
    decreases |s.holder.drain.todo|, 0
  {
    if s.holder.drain.todo == [] {
      UnlockNow(par, Apply(par, s, DrainUnlock), aside);
      UnlockLater(par, s, DrainUnlock, aside);
    } else {
      var s' := Apply(par, s, Mark);
      assert s'.ends.Keys == s.ends.Keys;
      if s'.holder.Marked? {
        MarkedUnlocks(par, s', aside);
      } else {
        DrainingUnlocks(par, s', aside);
      }
      UnlockLater(par, s, Mark, aside);
    }
  }

  lemma {:induction false} MarkedUnlocks(par: nat, s: State, aside: Option<nat>)
    requires Past(s, aside)
    requires s.holder.Marked? && s.holder.end in s.ends && TodoOk(s)
    ensures CanUnlockPast(par, s, aside)
    decreases |s.holder.drain.todo|, 3
  {
    var s' := Apply(par, s, Open);
    assert s'.ends.Keys == s.ends.Keys;
    OpenedUnlocks(par, s', aside);
    UnlockLater(par, s, Open, aside);
  }

  /** The look at InFlight comes out well if a request is in flight or the channel is empty. */
  lemma {:induction false} OpenedUnlocks(par: nat, s: State, aside: Option<nat>)
    requires Past(s, aside)
    requires s.holder.Opened? && s.holder.end in s.ends && TodoOk(s)
    requires s.ends[s.holder.end].inFlight != 0 || s.ends[s.holder.end].callback == Some(false)
    ensures CanUnlockPast(par, s, aside)
    decreases |s.holder.drain.todo|, 2
  {
    var s' := Apply(par, s, Probe);
    if s'.holder.Filling? {
      FillingUnlocks(par, s', aside);
    } else {
      DrainingUnlocks(par, s', aside);
    }
    UnlockLater(par, s, Probe, aside);
  }

  lemma {:induction false} FillingUnlocks(par: nat, s: State, aside: Option<nat>)
    requires Past(s, aside)
    requires Enabled(s, Fill) && TodoOk(s)
    ensures CanUnlockPast(par, s, aside)
    decreases |s.holder.drain.todo|, 1
  {
    var s' := Apply(par, s, Fill);
    assert s'.ends.Keys == s.ends.Keys;
    DrainingUnlocks(par, s', aside);
    UnlockLater(par, s, Fill, aside);
  }

  // --- Getting a request counted before the look at InFlight -----------------------------------------

  predicate Holds(p: Phase, e: nat) {
    p.at.Holding? && p.end == e
  }

  predicate Wants(p: Phase, e: nat) {
    p.at.Picked? && p.end == e
  }

  /** On its way to return its token without a signal. */
  predicate Frees(p: Phase, e: nat) {
    p.end == e && (p.at.Returning? || (p.at.Releasing? && !p.last))
  }

  /** While the lock is held, no request will be counted on the endpoint any more. */
  ghost predicate Idle(s: State, e: nat)
    requires e in s.ends
  {
    && (forall r :: r in s.requests ==> !Holds(s.requests[r], e))
    && ((forall r :: r in s.requests ==> !Wants(s.requests[r], e))
        || (s.ends[e].tokens <= 0 && forall r :: r in s.requests ==> !Frees(s.requests[r], e)))
  }

  predicate OpenAt(s: State, e: nat) {
    s.holder.Opened? && s.holder.end == e && e in s.ends && TodoOk(s)
  }

  lemma OpenKept(s: State, r: nat, m: Move, e: nat)
    requires OpenAt(s, e) && CanGo(s, r, m)
    ensures OpenAt(GoStep(s, r, m), e)
  {
    assert GoStep(s, r, m).ends.Keys == s.ends.Keys;
  }

  lemma HolderUnlocks(par: nat, s: State, r: nat, e: nat, aside: Option<nat>)
    requires Past(s, aside)
    requires OpenAt(s, e) && s.ends[e].inFlight >= 0 && r in s.requests && Holds(s.requests[r], e)
    ensures CanUnlockPast(par, s, aside)
  {
    OpenKept(s, r, Count, e);
    OpenedUnlocks(par, GoStep(s, r, Count), aside);
    UnlockLater(par, s, Go(r, Count), aside);
  }

  lemma WaiterUnlocks(par: nat, s: State, r: nat, e: nat, aside: Option<nat>)
    requires Past(s, aside)
    requires OpenAt(s, e) && s.ends[e].inFlight >= 0 && s.ends[e].tokens > 0
    requires r in s.requests && Wants(s.requests[r], e)
    ensures CanUnlockPast(par, s, aside)
  {
    OpenKept(s, r, TakeToken, e);
    HolderUnlocks(par, GoStep(s, r, TakeToken), r, e, aside);
    UnlockLater(par, s, Go(r, TakeToken), aside);
  }

  lemma ReturnerUnlocks(par: nat, s: State, q: nat, r: nat, e: nat, aside: Option<nat>)
    requires Past(s, aside)
    requires OpenAt(s, e) && s.ends[e].inFlight >= 0 && s.ends[e].tokens >= 0
    requires r in s.requests && Wants(s.requests[r], e)
    requires q in s.requests && s.requests[q].at.Returning? && s.requests[q].end == e
    ensures CanUnlockPast(par, s, aside)
  {
    OpenKept(s, q, GiveToken, e);
    WaiterUnlocks(par, GoStep(s, q, GiveToken), r, e, aside);
    UnlockLater(par, s, Go(q, GiveToken), aside);
  }

  lemma FreerUnlocks(par: nat, s: State, q: nat, r: nat, e: nat, aside: Option<nat>)
    requires Past(s, aside)
    requires OpenAt(s, e) && s.ends[e].inFlight >= 0 && s.ends[e].tokens >= 0
    requires r in s.requests && Wants(s.requests[r], e) && q in s.requests && Frees(s.requests[q], e)
    ensures CanUnlockPast(par, s, aside)
  {
    if s.requests[q].at.Returning? {
      ReturnerUnlocks(par, s, q, r, e, aside);
    } else {
      OpenKept(s, q, CheckDrained, e);
      ReturnerUnlocks(par, GoStep(s, q, CheckDrained), q, r, e, aside);
      UnlockLater(par, s, Go(q, CheckDrained), aside);
    }
  }

  lemma BusyUnlocks(par: nat, s: State, e: nat, aside: Option<nat>)
    requires Past(s, aside)
    requires OpenAt(s, e) && s.ends[e].inFlight >= 0 && s.ends[e].tokens >= 0 && !Idle(s, e)
    ensures CanUnlockPast(par, s, aside)
  {
    if r :| r in s.requests && Holds(s.requests[r], e) {
      HolderUnlocks(par, s, r, e, aside);
    } else {
      var r :| r in s.requests && Wants(s.requests[r], e);
      if s.ends[e].tokens > 0 {
        WaiterUnlocks(par, s, r, e, aside);
      } else {
        var q :| q in s.requests && Frees(s.requests[q], e);
        FreerUnlocks(par, s, q, r, e, aside);
      }
    }
  }

  // --- Drains that never finish ----------------------------------------------------------------------

  lemma FullOrEmpty(channel: Option<bool>)
    requires channel.Some?
    ensures channel == Some(true) || channel == Some(false)
  {
    if channel.value {
      assert channel == Some(true);
    } else {
      assert channel == Some(false);
    }
  }

  predicate FullAt(s: State, e: nat) {
    e in s.ends && e !in s.barred && s.ends[e].drained && s.ends[e].callback == Some(true)
  }

  /** The drain saw no request in flight, and a request has filled the channel before it. */
  predicate Hung(s: State) {
    s.holder.Filling? && FullAt(s, s.holder.end)
  }

  /** It is about to see none, the channel is full, and nobody can be counted in time. */
  ghost predicate Closing(s: State) {
    s.holder.Opened? && FullAt(s, s.holder.end) && s.ends[s.holder.end].inFlight == 0 && Idle(s, s.holder.end)
  }

  ghost predicate Doomed(s: State) {
    Hung(s) || Closing(s)
  }

  lemma FullGo(s: State, r: nat, m: Move, e: nat)
    requires FullAt(s, e) && CanGo(s, r, m)
    ensures FullAt(GoStep(s, r, m), e)
  {
    assert s.requests[r].end == e ==> !m.Signal?;
  }

  /** A full channel that nobody waits for stays full. */
  lemma FullStep(par: nat, s: State, a: Action, e: nat)
    requires EndsOk(par, s) && DrainOk(s) && FullAt(s, e) && Enabled(s, a)
    ensures FullAt(Apply(par, s, a), e) || (a.DrainUnlock? && e in Barriers(s))
  {
    match a
    case Go(r, m) => FullGo(s, r, m, e);
    case Open => assert MarkedNow(s, s.holder.end) && s.holder.end != e;
    case AddLock(infos) => assert e < s.nextEnd;
    case _ => FullOther(par, s, a, e);
  }

  lemma FullOther(par: nat, s: State, a: Action, e: nat)
    requires FullAt(s, e) && Enabled(s, a) && !a.Go? && !a.Open? && !a.AddLock?
    ensures FullAt(Apply(par, s, a), e) || (a.DrainUnlock? && e in Barriers(s))
  {
  }

  lemma NobodyFlies(par: nat, s: State, e: nat, r: nat)
    requires EndsOk(par, s) && e in s.ends && s.ends[e].inFlight == 0 && r in s.requests
    ensures !(InFlight(s.requests[r].at) && s.requests[r].end == e)
  {
    assert EndOk(par, s.requests, e, s.ends[e]);
    assert Those(s.requests, FlightTest(e)) == {};
    assert r !in Those(s.requests, FlightTest(e));
  }

  /** What one move does to the three kinds of requests that matter. */
  lemma IdleMove(s: State, r: nat, q: Phase, m: Move, e: nat)
    requires q.at == From(m) && e in s.ends && s.ends[e].drained && !Holds(q, e)
    requires !m.Pick? && (m.TakeToken? && q.end == e ==> !Wants(q, e) || s.ends[e].tokens > 0)
    ensures var p := Next(s, r, q, m);
      && (Holds(p, e) ==> Wants(q, e) && m.TakeToken?)
      && !Wants(p, e)
      && (Frees(p, e) ==> Frees(q, e) || (m.Release? && q.end == e) || (m.Signal? && q.end == e))
  {
  }

  lemma IdleGo(par: nat, s: State, r: nat, m: Move)
    requires EndsOk(par, s) && Closing(s) && CanGo(s, r, m)
    ensures Closing(GoStep(s, r, m))
  {
    var e := s.holder.end;
    var s' := GoStep(s, r, m);
    FullGo(s, r, m, e);
    NobodyFlies(par, s, e, r);
    IdleMove(s, r, s.requests[r], m, e);
    var p := Next(s, r, s.requests[r], m);
    assert forall q :: q in s'.requests ==> s'.requests[q] == if q == r then p else s.requests[q];
  }

  lemma DoomedStep(par: nat, s: State, a: Action)
    requires EndsOk(par, s) && DrainOk(s) && Doomed(s) && Enabled(s, a)
    ensures Doomed(Apply(par, s, a))
  {
    FullStep(par, s, a, s.holder.end);
    if a.Go? && Closing(s) {
      IdleGo(par, s, a.request, a.move);
    }
  }

  lemma {:induction false} DoomedRun(par: nat, s: State, run: seq<Action>)
    requires AllOk(par, s) && Doomed(s) && Legal(par, s, run)
    ensures Doomed(Exec(par, s, run))
    decreases |run|
  {
    if run != [] {
      DoomedStep(par, s, run[0]);
      AllStep(par, s, run[0]);
      DoomedRun(par, Apply(par, s, run[0]), run[1..]);
    }
  }

  lemma OthersUnlock(par: nat, s: State, aside: Option<nat>)
    requires AllOk(par, s) && !Doomed(s) && Past(s, aside)
    ensures CanUnlockPast(par, s, aside)
  {
    match s.holder
    case Free => UnlockNow(par, s, aside);
    case Waking => WakingUnlocks(par, s, aside);
    case Sending(_) => SendingUnlocks(par, s, aside);
    case Draining(_) => DrainingUnlocks(par, s, aside);
    case Marked(_, _) => MarkedUnlocks(par, s, aside);
    case Opened(e, _) =>
      assert e in Barriers(s) && EndOk(par, s.requests, e, s.ends[e]);
      FullOrEmpty(s.ends[e].callback);
      if s.ends[e].inFlight == 0 && s.ends[e].callback.value {
        BusyUnlocks(par, s, e, aside);
      } else {
        OpenedUnlocks(par, s, aside);
      }
    case Filling(e, _) =>
      assert e in Barriers(s);
      FullOrEmpty(s.ends[e].callback);
      FillingUnlocks(par, s, aside);
  }

  /** In every reachable state, whoever holds it, the metadata lock can be given up in some continuation
      exactly unless a drain is bound to send on a full channel: it has found its endpoint idle, or is
      about to and nobody can be counted there in time. From a doomed state no continuation frees it. */
  lemma LockFreesExactly(par: nat, s: State)
    requires Reachable(par, s)
    ensures CanUnlock(par, s) <==> !Doomed(s)
  {
    ReachableOk(par, s);
    if Doomed(s) {
      forall run | Legal(par, s, run) ensures !Unlocks(par, s, run) {
        DoomedRun(par, s, run);
      }
    } else {
      OthersUnlock(par, s, None);
    }
  }

  /** For a drain that has found its endpoint idle this is a look at the channel. */
  lemma DrainUnlocksExactly(par: nat, s: State)
    requires Reachable(par, s) && s.holder.Filling?
    ensures s.holder.end in s.ends
    ensures CanUnlock(par, s) <==> s.ends[s.holder.end].callback == Some(false)
  {
    ReachableOk(par, s);
    assert s.holder.end in Barriers(s);
    FullOrEmpty(s.ends[s.holder.end].callback);
    LockFreesExactly(par, s);
  }
}
