/** Draining: what every step keeps, and who will signal a waiting drain. */
module Draining {
  import opened Basics
  import opened Options
  import opened Admission
  import opened AdmissionBounds

  function Under(h: Holder): Drain {
    match h
    case Draining(d) => d
    case Marked(_, d) => d
    case Opened(_, d) => d
    case Filling(_, d) => d
    case _ => Drain([], [], [])
  }

  function Barriers(s: State): set<nat> {
    set e | e in Under(s.holder).barriers
  }

  /** The endpoint whose channel is made but whose InFlight the drain has yet to act on. */
  predicate Current(s: State, e: nat) {
    (s.holder.Opened? || s.holder.Filling?) && s.holder.end == e
  }

  predicate MarkedNow(s: State, e: nat) {
    s.holder.Marked? && s.holder.end == e
  }

  /** A draining channel exists exactly for the drained endpoints, but for the one just marked. */
  ghost predicate Channelled(s: State) {
    forall e :: e in s.ends ==> (s.ends[e].callback.Some? <==> s.ends[e].drained && !MarkedNow(s, e))
  }

  ghost predicate HolderOk(s: State) {
    && (forall e :: e in Under(s.holder).todo ==> e in s.ends)
    && (s.holder.Marked? || s.holder.Opened? || s.holder.Filling? ==> s.holder.end in s.ends)
    && (s.holder.Marked? ==> s.ends[s.holder.end].drained)
    && (s.holder.Opened? || s.holder.Filling? ==> s.holder.end in Barriers(s))
  }

  ghost predicate BarriersOk(s: State) {
    && s.barred !! Barriers(s)
    && (forall e :: e in s.barred + Barriers(s) ==> e in s.ends && s.ends[e].callback.Some?)
  }

  /** A request about to signal has seen the drained flag, and one that is sending has seen the channel. */
  ghost predicate SignallersOk(s: State) {
    && (forall r :: r in s.requests && s.requests[r].at.Signalling? ==> SawDrained(s.ends, s.requests[r].end))
    && (forall r :: r in s.requests && s.requests[r].at.Posting? ==> SawChannel(s.ends, s.requests[r].end))
  }

  predicate SawChannel(ends: map<nat, End>, e: nat) {
    e in ends && ends[e].callback.Some?
  }

  predicate SawDrained(ends: map<nat, End>, e: nat) {
    e in ends && ends[e].drained
  }

  ghost predicate DrainOk(s: State) {
    Channelled(s) && HolderOk(s) && BarriersOk(s) && SignallersOk(s)
  }

  // --- Shape ---------------------------------------------------------------------------------------

  lemma ShapeGo(s: State, r: nat, m: Move)
    requires DrainOk(s) && CanGo(s, r, m)
    ensures DrainOk(GoStep(s, r, m))
  {
    GoKeepsFlags(s, r, m);
    if m.CheckDrained? && Next(s, r, s.requests[r], m).at.Signalling? {
      assert SawDrained(s.ends, s.requests[r].end);
    }
  }

  lemma GoKeepsFlags(s: State, r: nat, m: Move)
    requires CanGo(s, r, m)
    ensures var s' := GoStep(s, r, m);
      && s'.ends.Keys == s.ends.Keys && s'.holder == s.holder && s'.barred == s.barred
      && forall e :: e in s.ends ==> SameFlags(s.ends[e], s'.ends[e])
  {
  }

  predicate SameFlags(x: End, y: End) {
    x.drained == y.drained && x.callback.Some? == y.callback.Some?
  }

  lemma {:induction false} MatchingListed(ends: map<nat, End>, list: seq<nat>, infos: seq<Info>)
    ensures forall e :: e in Matching(ends, list, infos) ==> e in ends && e in list
  {
    if list != [] {
      MatchingListed(ends, list[1..], infos);
    }
  }

  lemma ShapeMark(par: nat, s: State)
    requires DrainOk(s) && Enabled(s, Mark)
    ensures DrainOk(Apply(par, s, Mark))
  {
    var s' := Apply(par, s, Mark);
    assert Barriers(s') == Barriers(s);
    forall e | e in Under(s'.holder).todo ensures e in s'.ends {
      assert e in Under(s.holder).todo;
    }
  }

  lemma ShapeOpen(par: nat, s: State)
    requires DrainOk(s) && Enabled(s, Open)
    ensures DrainOk(Apply(par, s, Open))
    ensures s.holder.end !in s.barred + Barriers(s)
    ensures Barriers(Apply(par, s, Open)) == Barriers(s) + {s.holder.end}
  {
  }

  lemma ShapeAdd(par: nat, s: State, infos: seq<Info>)
    requires DrainOk(s) && EndsOk(par, s) && s.holder == Free
    ensures DrainOk(Added(par, s, infos))
  {
    var s' := Added(par, s, infos);
    forall e | e in s.ends ensures e in s'.ends && s'.ends[e] == s.ends[e] {
    }
  }

  lemma ShapeOther(par: nat, s: State, a: Action)
    requires DrainOk(s) && Enabled(s, a)
    requires !a.Go? && !a.AddLock? && !a.Mark? && !a.Open?
    ensures DrainOk(Apply(par, s, a))
  {
    var s' := Apply(par, s, a);
    if a.DrainLock? {
      MatchingListed(s.ends, s.list, a.gone);
    }
    assert s'.ends.Keys == s.ends.Keys;
    assert s'.barred + Barriers(s') <= s.barred + Barriers(s);
    forall e | e in s.ends
      ensures s'.ends[e].drained == s.ends[e].drained && s'.ends[e].callback.Some? == s.ends[e].callback.Some?
      ensures MarkedNow(s', e) == MarkedNow(s, e)
    {
    }
  }

  lemma ShapeStep(par: nat, s: State, a: Action)
    requires DrainOk(s) && EndsOk(par, s) && Enabled(s, a)
    ensures DrainOk(Apply(par, s, a))
  {
    match a
    case Go(r, m) => ShapeGo(s, r, m);
    case AddLock(infos) => ShapeAdd(par, s, infos);
    case Mark => ShapeMark(par, s);
    case Open => ShapeOpen(par, s);
    case _ => ShapeOther(par, s, a);
  }

  lemma {:induction false} ShapeRun(par: nat, s: State, run: seq<Action>)
    requires DrainOk(s) && CountsOk(par, s) && Legal(par, s, run)
    ensures DrainOk(Exec(par, s, run))
    decreases |run|
  {
    if run != [] {
      ShapeStep(par, s, run[0]);
      CountsStep(par, s, run[0]);
      ShapeRun(par, Apply(par, s, run[0]), run[1..]);
    }
  }

  // --- A waiting drain is signalled -----------------------------------------------------------------

  /** On its way to signal the drain of endpoint e, or sure to hand that duty on. */
  predicate Pledges(p: Phase, e: nat) {
    p.end == e && (InFlight(p.at) || (p.at.Releasing? && p.last) || p.at.Signalling? || p.at.Posting?)
  }

  ghost predicate Pledged(s: State, e: nat)
    requires e in s.ends
  {
    s.ends[e].callback == Some(true) || exists r :: r in s.requests && Pledges(s.requests[r], e)
  }

  /** Drains past the look at InFlight, whether or not they have given up the lock. */
  predicate Awaited(s: State, e: nat) {
    e in s.barred + Barriers(s) && !Current(s, e)
  }

  ghost predicate PledgesOk(s: State) {
    forall e :: e in s.ends && Awaited(s, e) ==> Pledged(s, e)
  }

  /** If an endpoint has requests in flight, one of them carries the pledge. */
  lemma FlyerPledges(par: nat, s: State, e: nat)
    requires CountsOk(par, s) && e in s.ends && s.ends[e].inFlight != 0
    ensures Pledged(s, e)
  {
  }

  /** A pledge survives any move of any request. */
  lemma PledgeGo(par: nat, s: State, r: nat, m: Move, e: nat)
    requires CountsOk(par, s) && DrainOk(s) && CanGo(s, r, m)
    requires e in s.ends && Awaited(s, e) && Pledged(s, e)
    ensures Pledged(GoStep(s, r, m), e)
  {
    var s' := GoStep(s, r, m);
    if s.ends[e].callback != Some(true) {
      var q :| q in s.requests && Pledges(s.requests[q], e);
      if q != r {
        assert s'.requests[q] == s.requests[q];
      } else {
        PledgeOwner(par, s, r, m, e);
      }
    }
  }

  lemma PledgeOwner(par: nat, s: State, r: nat, m: Move, e: nat)
    requires CountsOk(par, s) && CanGo(s, r, m)
    requires e in s.ends && s.ends[e].drained && s.ends[e].callback.Some? && Pledges(s.requests[r], e)
    ensures Pledged(GoStep(s, r, m), e)
  {
    if m.Release? && !Next(s, r, s.requests[r], m).last {
      CountsGo(par, s, r, m);
      FlyerPledges(par, GoStep(s, r, m), e);
    } else {
      PledgeStays(s, r, m, e);
    }
  }

  lemma PledgeStays(s: State, r: nat, m: Move, e: nat)
    requires CanGo(s, r, m) && (m.Release? ==> Next(s, r, s.requests[r], m).last)
    requires e in s.ends && s.ends[e].drained && s.ends[e].callback.Some? && Pledges(s.requests[r], e)
    ensures Pledged(GoStep(s, r, m), e)
  {
    var s' := GoStep(s, r, m);
    if !m.Signal? {
      PledgeNext(s, r, s.requests[r], m, e);
      assert r in s'.requests && Pledges(s'.requests[r], e);
    }
  }

  /** Short of the signal itself, and of leaving others in flight, the pledge stays with the request. */
  lemma PledgeNext(s: State, r: nat, q: Phase, m: Move, e: nat)
    requires q.at == From(m) && Pledges(q, e) && e in s.ends && s.ends[e].drained && s.ends[e].callback.Some?
    requires !m.Signal? && (m.Release? ==> Next(s, r, q, m).last)
    ensures Pledges(Next(s, r, q, m), e)
  {
  }

  lemma PledgesGo(par: nat, s: State, r: nat, m: Move)
    requires CountsOk(par, s) && DrainOk(s) && PledgesOk(s) && CanGo(s, r, m)
    ensures PledgesOk(GoStep(s, r, m))
  {
    var s' := GoStep(s, r, m);
    forall e | e in s'.ends && Awaited(s', e) ensures Pledged(s', e) {
      assert e in s.ends && Awaited(s, e);
      PledgeGo(par, s, r, m, e);
    }
  }

  /** The requests and an endpoint's channel are as before. */
  lemma PledgeKept(s: State, s': State, e: nat)
    requires e in s.ends && e in s'.ends && Pledged(s, e)
    requires s'.ends[e].callback == s.ends[e].callback
    requires forall r :: r in s.requests ==> r in s'.requests && s'.requests[r] == s.requests[r]
    ensures Pledged(s', e)
  {
  }

  lemma PledgesOther(par: nat, s: State, a: Action, e: nat)
    requires CountsOk(par, s) && DrainOk(s) && PledgesOk(s) && Enabled(s, a) && !a.Go?
    requires e in Apply(par, s, a).ends && Awaited(Apply(par, s, a), e)
    ensures Pledged(Apply(par, s, a), e)
  {
    var s' := Apply(par, s, a);
    if a.Open? {
      ShapeOpen(par, s);
    }
    if a.Probe? && e == s.holder.end {
      assert Current(s, e);
      FlyerPledges(par, s, e);
      PledgeKept(s, s', e);
    } else if !(a.Fill? && e == s.holder.end) {
      OldAwaited(par, s, a, e);
      PledgeKept(s, s', e);
    }
  }

  /** Apart from the look at InFlight, no step adds to the awaited drains. */
  lemma OldAwaited(par: nat, s: State, a: Action, e: nat)
    requires EndsOk(par, s) && DrainOk(s) && Enabled(s, a) && !a.Go?
    requires (a.Probe? || a.Fill?) ==> e != s.holder.end
    requires e in Apply(par, s, a).ends && Awaited(Apply(par, s, a), e)
    ensures e in s.ends && Awaited(s, e) && Apply(par, s, a).ends[e].callback == s.ends[e].callback
  {
    var s' := Apply(par, s, a);
    if a.Open? {
      ShapeOpen(par, s);
    }
    assert e in s.barred + Barriers(s);
  }

  lemma PledgesStep(par: nat, s: State, a: Action)
    requires CountsOk(par, s) && DrainOk(s) && PledgesOk(s) && Enabled(s, a)
    ensures PledgesOk(Apply(par, s, a))
  {
    if a.Go? {
      PledgesGo(par, s, a.request, a.move);
    } else {
      var s' := Apply(par, s, a);
      forall e | e in s'.ends && Awaited(s', e) ensures Pledged(s', e) {
        PledgesOther(par, s, a, e);
      }
    }
  }

  lemma {:induction false} PledgesRun(par: nat, s: State, run: seq<Action>)
    requires CountsOk(par, s) && DrainOk(s) && PledgesOk(s) && Legal(par, s, run)
    ensures CountsOk(par, Exec(par, s, run)) && DrainOk(Exec(par, s, run)) && PledgesOk(Exec(par, s, run))
    decreases |run|
  {
    if run != [] {
      ShapeStep(par, s, run[0]);
      CountsStep(par, s, run[0]);
      PledgesStep(par, s, run[0]);
      PledgesRun(par, Apply(par, s, run[0]), run[1..]);
    }
  }

  /** The step a pledging request takes next. */
  function Onward(at: Place): Move {
    match at
    case Counted => Leave
    case Running => Release
    case Releasing => CheckDrained
    case Signalling => Evaluate
    case _ => Signal
  }

  lemma PledgerMoves(s: State, r: nat, e: nat)
    requires r in s.requests && Pledges(s.requests[r], e) && e in s.ends && s.ends[e].callback.Some?
    requires !s.ends[e].callback.value
    ensures CanGo(s, r, Onward(s.requests[r].at))
  {
  }

  ghost predicate Signalled(s: State, e: nat) {
    || Enabled(s, Await(e))
    || exists r :: r in s.requests && Pledges(s.requests[r], e) && CanGo(s, r, Onward(s.requests[r].at))
  }

  lemma BarredIsSignalled(s: State, e: nat)
    requires DrainOk(s) && PledgesOk(s) && e in s.barred
    ensures Signalled(s, e)
  {
    if !s.ends[e].callback.value {
      assert Awaited(s, e) && Pledged(s, e);
      var r :| r in s.requests && Pledges(s.requests[r], e);
      PledgerMoves(s, r, e);
    }
  }

  lemma StartsOk(par: nat)
    ensures CountsOk(par, EMPTY) && DrainOk(EMPTY) && PledgesOk(EMPTY)
  {
  }

  /** Some continuation lets the drain of the endpoint receive. */
  ghost predicate CanAwait(par: nat, s: State, e: nat) {
    exists run :: Awaits(par, s, run, e)
  }

  predicate Awaits(par: nat, s: State, run: seq<Action>, e: nat) {
    Legal(par, s, run) && Enabled(Exec(par, s, run), Await(e))
  }

  lemma AwaitLater(par: nat, s: State, a: Action, e: nat)
    requires Enabled(s, a) && CanAwait(par, Apply(par, s, a), e)
    ensures CanAwait(par, s, e)
  {
    var run :| Awaits(par, Apply(par, s, a), run, e);
    assert ([a] + run)[1..] == run;
    assert Awaits(par, s, [a] + run, e);
  }

  function Distance(at: Place): nat {
    match at
    case Counted => 5
    case Running => 4
    case Releasing => 3
    case Signalling => 2
    case _ => 1
  }

  lemma FlyerOf(par: nat, s: State, e: nat) returns (r: nat)
    requires CountsOk(par, s) && e in s.ends && s.ends[e].inFlight != 0
    ensures r in s.requests && Pledges(s.requests[r], e)
  {
    assert EndOk(par, s.requests, e, s.ends[e]);
    r := Member(Flying(s, e));
    assert r in Those(s.requests, FlightTest(e));
  }

  /** A pledging request that goes on, or one it leaves in flight, ends up filling the channel. */
  lemma {:induction false} PledgerArrives(par: nat, s: State, r: nat, e: nat)
    requires CountsOk(par, s) && e in s.barred && SawDrained(s.ends, e) && SawChannel(s.ends, e)
    requires r in s.requests && Pledges(s.requests[r], e)
    ensures CanAwait(par, s, e)
    decreases s.ends[e].inFlight, Distance(s.requests[r].at)
  {
    assert EndOk(par, s.requests, e, s.ends[e]);
    if s.ends[e].callback.value {
      assert Awaits(par, s, [], e);
    } else {
      var m := Onward(s.requests[r].at);
      PledgerMoves(s, r, e);
      var s', q := NextPledger(par, s, r, e);
      if m.Signal? {
        assert Awaits(par, s', [], e);
      } else {
        PledgerArrives(par, s', q, e);
      }
      AwaitLater(par, s, Go(r, m), e);
    }
  }

  /** After a step of the pledging request, it or another one is nearer to the signal. */
  lemma NextPledger(par: nat, s: State, r: nat, e: nat) returns (s': State, q: nat)
    requires CountsOk(par, s) && e in s.barred && SawDrained(s.ends, e) && SawChannel(s.ends, e)
    requires r in s.requests && Pledges(s.requests[r], e) && CanGo(s, r, Onward(s.requests[r].at))
    ensures s' == GoStep(s, r, Onward(s.requests[r].at)) && CountsOk(par, s')
    ensures e in s'.barred && SawDrained(s'.ends, e) && SawChannel(s'.ends, e)
    ensures Onward(s.requests[r].at).Signal? ==> s'.ends[e].callback == Some(true)
    ensures !Onward(s.requests[r].at).Signal? ==>
      && q in s'.requests && Pledges(s'.requests[q], e)
      && (s'.ends[e].inFlight < s.ends[e].inFlight
          || (s'.ends[e].inFlight == s.ends[e].inFlight && Distance(s'.requests[q].at) < Distance(s.requests[r].at)))
  {
    var m := Onward(s.requests[r].at);
    PledgerStep(s, r, e);
    CountsGo(par, s, r, m);
    s', q := GoStep(s, r, m), r;
    if m.Release? && !s'.requests[r].last {
      q := FlyerOf(par, s', e);
    }
  }

  lemma PledgerStep(s: State, r: nat, e: nat)
    requires e in s.barred && SawDrained(s.ends, e) && SawChannel(s.ends, e)
    requires r in s.requests && Pledges(s.requests[r], e) && CanGo(s, r, Onward(s.requests[r].at))
    ensures var m := Onward(s.requests[r].at); var s' := GoStep(s, r, m);
      && e in s'.barred && SawDrained(s'.ends, e) && SawChannel(s'.ends, e)
      && (m.Signal? ==> s'.ends[e].callback == Some(true))
      && s'.ends[e].inFlight == s.ends[e].inFlight - One(m.Release?)
      && (m.Release? && !s'.requests[r].last ==> s'.ends[e].inFlight != 0)
      && (!m.Signal? && (m.Release? ==> s'.requests[r].last) ==>
            Pledges(s'.requests[r], e) && Distance(s'.requests[r].at) < Distance(s.requests[r].at))
  {
  }

  /** A drain that waits on an endpoint can always be woken: its channel is filled, or some request bound
      to signal it can take its next step, and some continuation lets the drain receive. */
  lemma DrainIsSignalled(par: nat, run: seq<Action>, e: nat)
    requires Legal(par, EMPTY, run) && e in Exec(par, EMPTY, run).barred
    ensures Signalled(Exec(par, EMPTY, run), e) && CanAwait(par, Exec(par, EMPTY, run), e)
  {
    StartsOk(par);
    PledgesRun(par, EMPTY, run);
    var s := Exec(par, EMPTY, run);
    BarredIsSignalled(s, e);
    BarredIsAwaited(par, s, e);
  }

  lemma BarredIsAwaited(par: nat, s: State, e: nat)
    requires CountsOk(par, s) && DrainOk(s) && PledgesOk(s) && e in s.barred
    ensures CanAwait(par, s, e)
  {
    assert e in s.barred + Barriers(s) && !MarkedNow(s, e) && Awaited(s, e) && Pledged(s, e);
    if s.ends[e].callback.value {
      assert Awaits(par, s, [], e);
    } else {
      var r :| r in s.requests && Pledges(s.requests[r], e);
      PledgerArrives(par, s, r, e);
    }
  }
}
