/** What one request does to the state when nothing interferes, as whole runs of its goroutine. */
module RequestRuns {
  import opened Options
  import opened Admission
  import opened Reachability

  /** The state after moves of request r that leave it in phase p and endpoint e as x. */
  function Moved(s: State, r: nat, p: Phase, e: nat, x: End, depth: int): State {
    s.(requests := s.requests[r := p], ends := s.ends[e := x], queueDepth := s.queueDepth + depth)
  }

  lemma MovedTwice(s: State, r: nat, p: Phase, p': Phase, e: nat, x: End, x': End, depth: int, depth': int)
    ensures Moved(Moved(s, r, p, e, x, depth), r, p', e, x', depth') == Moved(s, r, p', e, x', depth + depth')
  {
  }

  lemma MovedSame(s: State, r: nat, p: Phase, e: nat)
    requires e in s.ends
    ensures Moved(s, r, p, e, s.ends[e], 0) == s.(requests := s.requests[r := p])
  {
  }

  /** One more move, from a state that is itself the result of moves of the request. */
  lemma Grow(par: nat, start: State, run: seq<Action>, s: State, r: nat, p: Phase, e: nat, x: End, depth: int, m: Move)
    requires Leads(par, start, run, Moved(s, r, p, e, x, depth)) && CanGo(Moved(s, r, p, e, x, depth), r, m)
    requires p.end == e && !m.Enqueue? && !m.Receive? && !m.Finish?
    ensures Leads(par, start, run + [Go(r, m)],
                  Moved(s, r, Next(Moved(s, r, p, e, x, depth), r, p, m), e, Touched(x, m), depth + Depth(m)))
  {
    var t := Moved(s, r, p, e, x, depth);
    Append(par, start, run, t, Go(r, m));
    MovedTwice(s, r, p, Next(t, r, p, m), e, x, Touched(x, m), depth, Depth(m));
    assert t.requests[r] == p && t.ends[e] == x;
    assert GoStep(t, r, m) == Moved(t, r, Next(t, r, p, m), e, Touched(x, m), Depth(m));
  }

  /** An endpoint with one more request on it. */
  function Used(x: End): End {
    x.(tokens := x.tokens - 1, inFlight := x.inFlight + 1)
  }

  lemma TakeRun(par: nat, start: State, run: seq<Action>, s: State, r: nat, p: Phase, x: End)
    requires Leads(par, start, run, Moved(s, r, p, p.end, x, 0)) && p.at == Picked && x.tokens > 0
    ensures Leads(par, start, run + [Go(r, TakeToken)],
                  Moved(s, r, p.(at := Holding), p.end, x.(tokens := x.tokens - 1), 0))
  {
    Grow(par, start, run, s, r, p, p.end, x, 0, TakeToken);
  }

  lemma CountRun(par: nat, start: State, run: seq<Action>, s: State, r: nat, p: Phase, x: End)
    requires Leads(par, start, run, Moved(s, r, p, p.end, x, 0)) && p.at == Holding
    ensures Leads(par, start, run + [Go(r, Count)],
                  Moved(s, r, p.(at := Counted), p.end, x.(inFlight := x.inFlight + 1), 0))
  {
    Grow(par, start, run, s, r, p, p.end, x, 0, Count);
  }

  lemma LeaveRun(par: nat, start: State, run: seq<Action>, s: State, r: nat, p: Phase, x: End)
    requires Leads(par, start, run, Moved(s, r, p, p.end, x, 0)) && p.at == Counted
    ensures Leads(par, start, run + [Go(r, Leave)], Moved(s, r, p.(at := Running), p.end, x, -1))
  {
    Grow(par, start, run, s, r, p, p.end, x, 0, Leave);
  }

  /** From taking the token to leaving the load balancer. */
  lemma UseRun(par: nat, start: State, run: seq<Action>, s: State, r: nat, p: Phase, x: End)
    requires Leads(par, start, run, Moved(s, r, p, p.end, x, 0)) && p.at == Picked && x.tokens > 0
    ensures Leads(par, start, run + [Go(r, TakeToken)] + [Go(r, Count)] + [Go(r, Leave)],
                  Moved(s, r, p.(at := Running), p.end, Used(x), -1))
  {
    TakeRun(par, start, run, s, r, p, x);
    CountRun(par, start, run + [Go(r, TakeToken)], s, r, p.(at := Holding), x.(tokens := x.tokens - 1));
    LeaveRun(par, start, run + [Go(r, TakeToken)] + [Go(r, Count)], s, r, p.(at := Counted), Used(x));
  }

  // --- Giving back -----------------------------------------------------------------------------------

  /** Whether the request that leaves is the last one of a drained endpoint. */
  predicate Signals(x: End) {
    x.drained && x.inFlight == 1
  }

  predicate Blocks(x: End) {
    Signals(x) && (x.callback.None? || x.callback.value)
  }

  /** An endpoint after a request has left. A request that blocks keeps its token. */
  function Returned(x: End): (y: End)
    ensures !x.drained ==> Used(y) == x
  {
    x.(tokens := if Blocks(x) then x.tokens else x.tokens + 1,
       inFlight := x.inFlight - 1,
       callback := if Signals(x) && x.callback.Some? then Some(true) else x.callback)
  }

  function ReturnedAt(x: End): Place {
    if !Blocks(x) then Leaving else if x.callback.None? then Stuck else Posting
  }

  /** The last steps of a request whose endpoint asks for no signal, or has taken it. */
  lemma TokenRun(par: nat, start: State, run: seq<Action>, s: State, r: nat, p: Phase, x: End)
    requires Leads(par, start, run, Moved(s, r, p, p.end, x, 0)) && p.at == Returning
    ensures Leads(par, start, run + [Go(r, GiveToken)],
                  Moved(s, r, p.(at := Leaving), p.end, x.(tokens := x.tokens + 1), 0))
  {
    Grow(par, start, run, s, r, p, p.end, x, 0, GiveToken);
  }

  lemma EvaluateRun(par: nat, start: State, run: seq<Action>, s: State, r: nat, p: Phase, x: End)
    requires Leads(par, start, run, Moved(s, r, p, p.end, x, 0)) && p.at == Signalling
    ensures Leads(par, start, run + [Go(r, Evaluate)],
                  Moved(s, r, p.(at := if x.callback.Some? then Posting else Stuck), p.end, x, 0))
  {
    Grow(par, start, run, s, r, p, p.end, x, 0, Evaluate);
  }

  lemma PostRun(par: nat, start: State, run: seq<Action>, s: State, r: nat, p: Phase, x: End)
    requires Leads(par, start, run, Moved(s, r, p, p.end, x, 0)) && p.at == Posting && x.callback == Some(false)
    ensures Leads(par, start, run + [Go(r, Signal)],
                  Moved(s, r, p.(at := Returning), p.end, x.(callback := Some(true)), 0))
  {
    Grow(par, start, run, s, r, p, p.end, x, 0, Signal);
  }

  lemma SignalRun(par: nat, start: State, run: seq<Action>, s: State, r: nat, p: Phase, x: End)
    returns (run': seq<Action>)
    requires Leads(par, start, run, Moved(s, r, p, p.end, x, 0)) && p.at == Signalling
    ensures x.callback.None? ==> Leads(par, start, run', Moved(s, r, p.(at := Stuck), p.end, x, 0))
    ensures x.callback.Some? && x.callback.value ==>
      Leads(par, start, run', Moved(s, r, p.(at := Posting), p.end, x, 0))
    ensures x.callback.Some? && !x.callback.value ==>
      var y := x.(callback := Some(true), tokens := x.tokens + 1);
      Leads(par, start, run', Moved(s, r, p.(at := Leaving), p.end, y, 0))
  {
    EvaluateRun(par, start, run, s, r, p, x);
    run' := run + [Go(r, Evaluate)];
    if x.callback.Some? && !x.callback.value {
      PostRun(par, start, run', s, r, p.(at := Posting), x);
      run' := run' + [Go(r, Signal)];
      TokenRun(par, start, run', s, r, p.(at := Returning), x.(callback := Some(true)));
      run' := run' + [Go(r, GiveToken)];
    }
  }

  function Released(p: Phase, x: End): Phase {
    p.(at := if Signals(x) then Signalling else Returning, last := x.inFlight == 1)
  }

  lemma ReleaseRun(par: nat, start: State, run: seq<Action>, s: State, r: nat, p: Phase, x: End)
    requires Leads(par, start, run, Moved(s, r, p, p.end, x, 0)) && p.at == Running
    ensures Leads(par, start, run + [Go(r, Release)] + [Go(r, CheckDrained)],
                  Moved(s, r, Released(p, x), p.end, x.(inFlight := x.inFlight - 1), 0))
  {
    var p' := p.(at := Releasing, last := x.inFlight == 1);
    Grow(par, start, run, s, r, p, p.end, x, 0, Release);
    CheckRun(par, start, run + [Go(r, Release)], s, r, p', x.(inFlight := x.inFlight - 1));
  }

  lemma CheckRun(par: nat, start: State, run: seq<Action>, s: State, r: nat, p: Phase, x: End)
    requires Leads(par, start, run, Moved(s, r, p, p.end, x, 0)) && p.at == Releasing
    ensures Leads(par, start, run + [Go(r, CheckDrained)],
                  Moved(s, r, p.(at := if p.last && x.drained then Signalling else Returning), p.end, x, 0))
  {
    Grow(par, start, run, s, r, p, p.end, x, 0, CheckDrained);
  }

  lemma ReturnRun(par: nat, start: State, run: seq<Action>, s: State, r: nat, p: Phase, x: End)
    returns (run': seq<Action>)
    requires Leads(par, start, run, Moved(s, r, p, p.end, x, 0)) && p.at == Running
    ensures var p' := p.(at := ReturnedAt(x), last := x.inFlight == 1);
      Leads(par, start, run', Moved(s, r, p', p.end, Returned(x), 0))
  {
    ReleaseRun(par, start, run, s, r, p, x);
    run' := run + [Go(r, Release)] + [Go(r, CheckDrained)];
    var x' := x.(inFlight := x.inFlight - 1);
    if Signals(x) {
      run' := SignalRun(par, start, run', s, r, Released(p, x), x');
      assert x.callback.Some? && x.callback.value ==> x.callback == Some(true);
    } else {
      TokenRun(par, start, run', s, r, Released(p, x), x');
      run' := run' + [Go(r, GiveToken)];
    }
  }

  // --- Load balancing --------------------------------------------------------------------------------

  /** Moves that leave the endpoint alone. */
  predicate Aloof(m: Move) {
    m.Load? || m.Enter? || m.PickNil? || m.Pick? || m.TimeOut? || m.Exhaust?
  }

  lemma AloofRun(par: nat, start: State, run: seq<Action>, s: State, r: nat, m: Move)
    requires Leads(par, start, run, s) && CanGo(s, r, m) && Aloof(m)
    ensures Leads(par, start, run + [Go(r, m)],
                  s.(requests := s.requests[r := Next(s, r, s.requests[r], m)], queueDepth := s.queueDepth + Depth(m)))
  {
    Append(par, start, run, s, Go(r, m));
    assert GoStep(s, r, m).ends == s.ends;
  }

  /** An attempt that times out. */
  lemma AttemptRun(par: nat, start: State, run: seq<Action>, s: State, r: nat, p: Phase, e: nat)
    requires Leads(par, start, run, s) && r in s.requests && s.requests[r] == p
    requires p.at == Balancing && p.tries > 0 && e in s.list && s.holder == Free
    ensures Leads(par, start, run + [Go(r, Pick(e))] + [Go(r, TimeOut)],
                  s.(requests := s.requests[r := p.(end := e, tries := p.tries - 1)]))
  {
    AloofRun(par, start, run, s, r, Pick(e));
    var t := s.(requests := s.requests[r := p.(at := Picked, end := e)]);
    AloofRun(par, start, run + [Go(r, Pick(e))], t, r, TimeOut);
    var q := p.(end := e, tries := p.tries - 1);
    assert t.requests[r := q] == s.requests[r := q];
  }

  /** An attempt that gets the token. */
  lemma GrantRun(par: nat, start: State, run: seq<Action>, s: State, r: nat, p: Phase, e: nat)
    requires Leads(par, start, run, s) && r in s.requests && s.requests[r] == p
    requires p.at == Balancing && p.tries > 0 && e in s.list && s.holder == Free
    requires e in s.ends && s.ends[e].tokens > 0
    ensures Leads(par, start, run + [Go(r, Pick(e))] + [Go(r, TakeToken)] + [Go(r, Count)] + [Go(r, Leave)],
                  Moved(s, r, p.(at := Running, end := e), e, Used(s.ends[e]), -1))
  {
    var q := p.(at := Picked, end := e);
    AloofRun(par, start, run, s, r, Pick(e));
    MovedSame(s, r, q, e);
    UseRun(par, start, run + [Go(r, Pick(e))], s, r, q, s.ends[e]);
  }

  // --- Arrival ---------------------------------------------------------------------------------------

  function Came(s: State, r: nat, at: Place): State {
    s.(requests := s.requests[r := ARRIVED.(at := at)], metric := s.metric + 1)
  }

  /** A request that finds no active endpoint ends up waiting in the queue, any other is admitted. */
  lemma WarmStartRun(par: nat, s: State, r: nat) returns (run: seq<Action>)
    requires r !in s.requests && s.holder == Free
    ensures s.active != 0 ==> Leads(par, s, run, Came(s, r, Admitted))
    ensures s.active == 0 ==>
      Leads(par, s, run, Came(s, r, Waiting).(channels := s.channels[r := Chan([], false, false, 0)],
                                              queue := s.queue + [r], queueDepth := s.queueDepth + 1))
  {
    Append(par, s, [], s, Arrive(r));
    run := [] + [Arrive(r)];
    var t := Came(s, r, Arrived);
    AloofRun(par, s, run, t, r, Load);
    run := run + [Go(r, Load)];
    var at := if s.active == 0 then Cold else Admitted;
    assert t.requests[r := ARRIVED.(at := at)] == Came(s, r, at).requests;
    if s.active == 0 {
      var u := Came(s, r, Cold);
      Append(par, s, run, u, Go(r, Enqueue));
      run := run + [Go(r, Enqueue)];
      assert GoStep(u, r, Enqueue).ends == s.ends;
      assert u.requests[r := ARRIVED.(at := Waiting)] == Came(s, r, Waiting).requests;
    }
  }
}
