/** Cold-start wake-ups: what goes through the wait channels, and when a waiter is missed. */
module WakeUps {
  import opened Basics
  import opened Options
  import opened Admission

  /** Everything sent is in the one-slot buffer or was received, the owner receives once, and it is
      still waiting exactly until then. */
  predicate ChanOk(at: Place, c: Chan) {
    && |c.buffer| <= 1 && |c.buffer| + c.received == One(c.woken) + One(c.canceled)
    && c.received <= 1 && (at.Waiting? <==> c.received == 0)
    && !at.Arrived? && !at.Cold?
  }

  ghost predicate ChansOk(requests: map<nat, Phase>, channels: map<nat, Chan>) {
    && (forall r :: r in channels ==> r in requests && ChanOk(requests[r].at, channels[r]))
    && (forall r :: r in requests && requests[r].at.Waiting? ==> r in channels)
  }

  predicate Unwoken(channels: map<nat, Chan>, r: nat) {
    r in channels && !channels[r].woken
  }

  /** Nobody is queued twice, and those queued or about to be sent to have not been woken. */
  ghost predicate QueueOk(s: State) {
    && (forall i, j :: 0 <= i < j < |s.queue| ==> s.queue[i] != s.queue[j])
    && (forall i :: 0 <= i < |s.queue| ==> Unwoken(s.channels, s.queue[i]))
    && (s.holder.Sending? ==> Unwoken(s.channels, s.holder.request) && s.holder.request !in s.queue)
  }

  ghost predicate WakeOk(s: State) {
    ChansOk(s.requests, s.channels) && QueueOk(s)
  }

  // --- Steps ---------------------------------------------------------------------------------------

  lemma WakeMove(s: State, r: nat, m: Move)
    requires WakeOk(s) && CanGo(s, r, m) && !m.Enqueue? && !m.Receive?
    ensures WakeOk(GoStep(s, r, m))
  {
    PlaceAfter(s, r, s.requests[r], m);
    ChansMoved(s.requests, s.channels, r, Next(s, r, s.requests[r], m));
  }

  lemma PlaceAfter(s: State, r: nat, q: Phase, m: Move)
    requires q.at == From(m) && !m.Enqueue? && !m.Receive?
    ensures var at := Next(s, r, q, m).at;
      !q.at.Waiting? && !at.Waiting? && !at.Arrived? && (at.Cold? ==> q.at.Arrived?)
  {
  }

  lemma ChansMoved(requests: map<nat, Phase>, channels: map<nat, Chan>, r: nat, p: Phase)
    requires ChansOk(requests, channels) && r in requests
    requires !requests[r].at.Waiting? && !p.at.Waiting? && !p.at.Arrived? && (p.at.Cold? ==> requests[r].at.Arrived?)
    ensures ChansOk(requests[r := p], channels)
  {
    assert r in channels ==> ChanOk(requests[r].at, channels[r]);
  }

  lemma WakeEnqueue(s: State, r: nat)
    requires WakeOk(s) && CanGo(s, r, Enqueue)
    ensures WakeOk(GoStep(s, r, Enqueue))
  {
    assert r !in s.channels;
    assert forall i :: 0 <= i < |s.queue| ==> Unwoken(s.channels, s.queue[i]);
    var s' := GoStep(s, r, Enqueue);
    forall i | 0 <= i < |s'.queue| ensures Unwoken(s'.channels, s'.queue[i]) && (i < |s.queue| ==> s'.queue[i] != r) {
    }
  }

  lemma WakeReceive(s: State, r: nat)
    requires WakeOk(s) && CanGo(s, r, Receive)
    ensures WakeOk(GoStep(s, r, Receive))
  {
  }

  lemma WakeGo(s: State, r: nat, m: Move)
    requires WakeOk(s) && CanGo(s, r, m)
    ensures WakeOk(GoStep(s, r, m))
  {
    match m
    case Enqueue => WakeEnqueue(s, r);
    case Receive => WakeReceive(s, r);
    case _ => WakeMove(s, r, m);
  }

  lemma WakeSend(par: nat, s: State)
    requires WakeOk(s) && Enabled(s, AddSend)
    ensures WakeOk(Apply(par, s, AddSend))
  {
    var r := s.holder.request;
    var s' := Apply(par, s, AddSend);
    assert ChanOk(s.requests[r].at, s.channels[r]);
    forall i | 0 <= i < |s'.queue| ensures Unwoken(s'.channels, s'.queue[i]) {
      assert s.queue[i] in s.queue;
      assert Unwoken(s.channels, s.queue[i]);
    }
  }

  lemma WakePop(par: nat, s: State)
    requires WakeOk(s) && Enabled(s, AddPop)
    ensures WakeOk(Apply(par, s, AddPop))
  {
  }

  lemma WakeCancel(par: nat, s: State, r: nat)
    requires WakeOk(s) && Enabled(s, Cancel(r))
    ensures WakeOk(Apply(par, s, Cancel(r)))
  {
    var s' := Apply(par, s, Cancel(r));
    assert ChanOk(s.requests[r].at, s.channels[r]);
    forall q | Unwoken(s.channels, q) ensures Unwoken(s'.channels, q) {
    }
  }

  lemma WakeOther(par: nat, s: State, a: Action)
    requires WakeOk(s) && Enabled(s, a) && !a.Go? && !a.Cancel? && !a.AddPop? && !a.AddSend?
    ensures WakeOk(Apply(par, s, a))
  {
    var s' := Apply(par, s, a);
    assert s'.channels == s.channels && s'.queue == s.queue && (s'.holder.Sending? ==> s'.holder == s.holder);
  }

  lemma WakeStep(par: nat, s: State, a: Action)
    requires WakeOk(s) && Enabled(s, a)
    ensures WakeOk(Apply(par, s, a))
  {
    match a
    case Go(r, m) => WakeGo(s, r, m);
    case Cancel(r) => WakeCancel(par, s, r);
    case AddPop => WakePop(par, s);
    case AddSend => WakeSend(par, s);
    case _ => WakeOther(par, s, a);
  }

  lemma {:induction false} WakeRun(par: nat, s: State, run: seq<Action>)
    requires WakeOk(s) && Legal(par, s, run)
    ensures WakeOk(Exec(par, s, run))
    decreases |run|
  {
    if run != [] {
      WakeStep(par, s, run[0]);
      WakeRun(par, Apply(par, s, run[0]), run[1..]);
    }
  }

  /** In every reachable state where AddEndpoints holds the lock and is sending to a waiter, the send
      can happen at once, or the owner can receive and the send can happen right after. */
  lemma SendIsNeverStuck(par: nat, run: seq<Action>)
    requires Legal(par, EMPTY, run) && Exec(par, EMPTY, run).holder.Sending?
    ensures var s := Exec(par, EMPTY, run);
      || Enabled(s, AddSend)
      || (CanGo(s, s.holder.request, Receive) && Enabled(GoStep(s, s.holder.request, Receive), AddSend))
  {
    WakeRun(par, EMPTY, run);
    var s := Exec(par, EMPTY, run);
    assert ChanOk(s.requests[s.holder.request].at, s.channels[s.holder.request]);
  }

  // --- At most one success and one cancel ------------------------------------------------------------

  predicate Wakes(s: State, a: Action, r: nat) {
    a.AddSend? && s.holder == Sending(r)
  }

  function Successes(par: nat, s: State, run: seq<Action>, r: nat): nat
    requires Legal(par, s, run)
    decreases |run|
  {
    if run == [] then 0 else One(Wakes(s, run[0], r)) + Successes(par, Apply(par, s, run[0]), run[1..], r)
  }

  function Cancels(run: seq<Action>, r: nat): nat {
    if run == [] then 0 else One(run[0] == Cancel(r)) + Cancels(run[1..], r)
  }

  function Woken(s: State, r: nat): nat {
    One(r in s.channels && s.channels[r].woken)
  }

  function CanceledBefore(s: State, r: nat): nat {
    One(r in s.channels && s.channels[r].canceled)
  }

  lemma SentStep(par: nat, s: State, a: Action, r: nat)
    requires WakeOk(s) && Enabled(s, a)
    ensures Woken(Apply(par, s, a), r) == Woken(s, r) + One(Wakes(s, a, r))
    ensures CanceledBefore(Apply(par, s, a), r) == CanceledBefore(s, r) + One(a == Cancel(r))
  {
    if a.Go? {
      SentGo(s, a.request, a.move, r);
    }
  }

  /** A goroutine's own moves send nothing; joining the queue makes a channel that was not there. */
  lemma SentGo(s: State, q: nat, m: Move, r: nat)
    requires WakeOk(s) && CanGo(s, q, m)
    ensures Woken(GoStep(s, q, m), r) == Woken(s, r) && CanceledBefore(GoStep(s, q, m), r) == CanceledBefore(s, r)
  {
    if m.Enqueue? {
      assert q !in s.channels;
    }
  }

  lemma {:induction false} SentRun(par: nat, s: State, run: seq<Action>, r: nat)
    requires WakeOk(s) && Legal(par, s, run)
    ensures Woken(Exec(par, s, run), r) == Woken(s, r) + Successes(par, s, run, r)
    ensures CanceledBefore(Exec(par, s, run), r) == CanceledBefore(s, r) + Cancels(run, r)
    decreases |run|
  {
    if run != [] {
      WakeStep(par, s, run[0]);
      SentStep(par, s, run[0], r);
      SentRun(par, Apply(par, s, run[0]), run[1..], r);
    }
  }

  /** Over a whole run a waiter is sent at most one success and at most one cancel, and it receives
      at most one of the two. */
  lemma OneSuccessOneCancel(par: nat, run: seq<Action>, r: nat)
    requires Legal(par, EMPTY, run)
    ensures Successes(par, EMPTY, run, r) <= 1 && Cancels(run, r) <= 1
    ensures r in Exec(par, EMPTY, run).channels ==> Exec(par, EMPTY, run).channels[r].received <= 1
  {
    WakeRun(par, EMPTY, run);
    SentRun(par, EMPTY, run, r);
    var s := Exec(par, EMPTY, run);
    if r in s.channels {
      assert ChanOk(s.requests[r].at, s.channels[r]);
    }
  }

  // --- What a waiter is told ---------------------------------------------------------------------------

  /** What is in the channel was sent: a success by AddEndpoints, a cancel by the client's context. */
  predicate Genuine(c: Chan) {
    (Success in c.buffer ==> c.woken) && (Canceled in c.buffer ==> c.canceled)
  }

  ghost predicate AllGenuine(s: State) {
    forall r :: r in s.channels ==> Genuine(s.channels[r])
  }

  lemma GenuineStep(par: nat, s: State, a: Action)
    requires AllGenuine(s) && Enabled(s, a)
    ensures AllGenuine(Apply(par, s, a))
  {
  }

  lemma {:induction false} GenuineRun(par: nat, s: State, run: seq<Action>)
    requires AllGenuine(s) && Legal(par, s, run)
    ensures AllGenuine(Exec(par, s, run))
    decreases |run|
  {
    if run != [] {
      GenuineStep(par, s, run[0]);
      GenuineRun(par, Apply(par, s, run[0]), run[1..]);
    }
  }

  /** A waiter that receives is admitted only if AddEndpoints has sent it a success, and turned away only if
      its client has given up; so of the two, whichever has not happened decides. */
  lemma WaiterIsToldTruly(par: nat, run: seq<Action>, r: nat)
    requires Legal(par, EMPTY, run) && CanGo(Exec(par, EMPTY, run), r, Receive)
    ensures var at := GoStep(Exec(par, EMPTY, run), r, Receive).requests[r].at;
      && (at == Admitted || at == Leaving)
      && (at == Admitted ==> Successes(par, EMPTY, run, r) == 1) && (at == Leaving ==> Cancels(run, r) == 1)
      && (Cancels(run, r) == 0 ==> at == Admitted) && (Successes(par, EMPTY, run, r) == 0 ==> at == Leaving)
  {
    var s := Exec(par, EMPTY, run);
    GenuineRun(par, EMPTY, run);
    WakeRun(par, EMPTY, run);
    SentRun(par, EMPTY, run, r);
    assert Genuine(s.channels[r]) && s.channels[r].buffer[0] in s.channels[r].buffer;
    assert s.channels[r].buffer[0] == Success || s.channels[r].buffer[0] == Canceled;
  }

  // --- The order of service ----------------------------------------------------------------------------

  function JoinedBy(a: Action): seq<nat> {
    match a
    case Go(r, Enqueue) => [r]
    case _ => []
  }

  /** The requests that joined the queue in a run, in order. */
  function Joined(run: seq<Action>): seq<nat>
    decreases |run|
  {
    if run == [] then [] else JoinedBy(run[0]) + Joined(run[1..])
  }

  function SentBy(s: State, a: Action): seq<nat> {
    if a == AddSend && s.holder.Sending? then [s.holder.request] else []
  }

  /** The requests whose channel AddEndpoints sent to in a run, in order. */
  function SentTo(par: nat, s: State, run: seq<Action>): seq<nat>
    requires Legal(par, s, run)
    decreases |run|
  {
    if run == [] then [] else SentBy(s, run[0]) + SentTo(par, Apply(par, s, run[0]), run[1..])
  }

  /** Those that are still to be sent to. */
  function Pending(s: State): seq<nat> {
    (if s.holder.Sending? then [s.holder.request] else []) + s.queue
  }

  lemma PendingStep(par: nat, s: State, a: Action)
    requires Enabled(s, a)
    ensures Pending(s) + JoinedBy(a) == SentBy(s, a) + Pending(Apply(par, s, a))
  {
  }

  /** Regrouping: what is pending at first and joins is what is sent to and pending at the end. */
  lemma Regroup<T>(first: seq<T>, joined: seq<T>, sent: seq<T>, mid: seq<T>, later: seq<T>, after: seq<T>, last: seq<T>)
    requires first + joined == sent + mid && mid + later == after + last
    ensures first + (joined + later) == (sent + after) + last
  {
    assert first + (joined + later) == (first + joined) + later;
    assert (sent + mid) + later == sent + (mid + later);
    assert sent + (after + last) == (sent + after) + last;
  }

  lemma {:induction false} PendingRun(par: nat, s: State, run: seq<Action>)
    requires Legal(par, s, run)
    ensures Pending(s) + Joined(run) == SentTo(par, s, run) + Pending(Exec(par, s, run))
    decreases |run|
  {
    if run == [] {
      assert Pending(s) + [] == [] + Pending(s);
    } else {
      var s' := Apply(par, s, run[0]);
      PendingStep(par, s, run[0]);
      PendingRun(par, s', run[1..]);
      Regroup(Pending(s), JoinedBy(run[0]), SentBy(s, run[0]), Pending(s'), Joined(run[1..]),
              SentTo(par, s', run[1..]), Pending(Exec(par, s, run)));
    }
  }

  /** First come, first served: in every run the waiters are sent to in the order in which they joined the
      queue, none is passed over, and those not yet sent to are the one being sent to and the queue. */
  lemma FirstComeFirstServed(par: nat, run: seq<Action>)
    requires Legal(par, EMPTY, run)
    ensures Joined(run) == SentTo(par, EMPTY, run) + Pending(Exec(par, EMPTY, run))
  {
    PendingRun(par, EMPTY, run);
    assert Pending(EMPTY) + Joined(run) == Joined(run);
  }

  // --- Missed waiters --------------------------------------------------------------------------------

  /** Unless AddEndpoints is at work, somebody queues only while no endpoint is active. */
  predicate Served(s: State) {
    s.holder.Waking? || s.holder.Sending? || s.queue == [] || s.active == 0
  }

  predicate AlwaysServed(par: nat, s: State, run: seq<Action>)
    requires Legal(par, s, run)
    decreases |run|
  {
    Served(s) && (run == [] || AlwaysServed(par, Apply(par, s, run[0]), run[1..]))
  }

  predicate Late(s: State, a: Action) {
    a.Go? && a.move.Enqueue? && s.active != 0
  }

  /** No request joins the queue while an endpoint is active. */
  predicate NeverLate(par: nat, s: State, run: seq<Action>)
    requires Legal(par, s, run)
    decreases |run|
  {
    run == [] || (!Late(s, run[0]) && NeverLate(par, Apply(par, s, run[0]), run[1..]))
  }

  lemma {:induction false} RemoveUrlShrinks(ends: map<nat, End>, list: seq<nat>, url: string)
    ensures |RemoveUrl(ends, list, url)| <= |list|
  {
    if list != [] {
      RemoveUrlShrinks(ends, list[1..], url);
    }
  }

  lemma {:induction false} RemoveUrlsShrinks(ends: map<nat, End>, list: seq<nat>, infos: seq<Info>)
    ensures |RemoveUrls(ends, list, infos)| <= |list|
    decreases |infos|
  {
    if infos != [] {
      RemoveUrlShrinks(ends, list, infos[0].url);
      RemoveUrlsShrinks(ends, RemoveUrl(ends, list, infos[0].url), infos[1..]);
    }
  }

  lemma ServedStep(par: nat, s: State, a: Action)
    requires Enabled(s, a) && s.active == |s.list| && Served(s)
    ensures Apply(par, s, a).active == |Apply(par, s, a).list|
    ensures Served(Apply(par, s, a)) <==> !Late(s, a)
  {
    if a.DrainUnlock? {
      RemoveUrlsShrinks(s.ends, s.list, s.holder.drain.infos);
    }
  }

  lemma {:induction false} ServedRun(par: nat, s: State, run: seq<Action>)
    requires Legal(par, s, run) && s.active == |s.list| && Served(s)
    ensures AlwaysServed(par, s, run) <==> NeverLate(par, s, run)
    decreases |run|
  {
    if run != [] {
      ServedStep(par, s, run[0]);
      if Served(Apply(par, s, run[0])) {
        ServedRun(par, Apply(par, s, run[0]), run[1..]);
      }
    }
  }

  /** A run leaves nobody behind in the queue while endpoints are active exactly when no request joins
      the queue while an endpoint is active; the code does not look again once it has the lock. */
  lemma ServedExactly(par: nat, run: seq<Action>)
    requires Legal(par, EMPTY, run)
    ensures AlwaysServed(par, EMPTY, run) <==> NeverLate(par, EMPTY, run)
  {
    ServedRun(par, EMPTY, run);
  }

  /** A request that found no endpoint and takes the lock after AddEndpoints is left in the queue. */
  lemma WakeUpIsMissed(par: nat)
    ensures var run := [Arrive(0), Go(0, Load), AddLock([Info("a", "a")]), AddUnlock, Go(0, Enqueue)];
      Legal(par, EMPTY, run) && !AlwaysServed(par, EMPTY, run)
  {
    var run := [Arrive(0), Go(0, Load), AddLock([Info("a", "a")]), AddUnlock, Go(0, Enqueue)];
    assert run[1..] == [Go(0, Load), AddLock([Info("a", "a")]), AddUnlock, Go(0, Enqueue)];
    assert run[1..][1..] == [AddLock([Info("a", "a")]), AddUnlock, Go(0, Enqueue)];
    assert run[1..][1..][1..] == [AddUnlock, Go(0, Enqueue)];
    assert run[1..][1..][1..][1..] == [Go(0, Enqueue)];
    assert run[1..][1..][1..][1..][1..] == [];
  }
}
