/** Admission of requests in the data plane, step by step at the granularity of its atomics and
    channel operations (internal/data_plane/function_metadata/function_metadata.go, the load
    balancer and the proxy handlers). */
module Admission {
  import opened Options

  /** What the control plane sends about an endpoint. */
  datatype Info = Info(id: string, url: string)

  /** One endpoint object. `tokens` is the fill of its throttler channel; `callback` is nil, or
      whether the one-slot draining channel is full. */
  datatype End = End(id: string, url: string, tokens: int, inFlight: int, drained: bool, callback: Option<bool>)

  datatype Outcome = Success | Canceled

  /** The wait channel of one request and what has gone through it. */
  datatype Chan = Chan(buffer: seq<Outcome>, woken: bool, canceled: bool, received: nat)

  datatype Place =
    | Arrived | Cold | Waiting | Admitted | Balancing | Picked | Holding | Counted | Running | Releasing | Signalling
    | Posting | Stuck | Returning | Leaving | Done

  /** Where the goroutine of a request stands. `end` is the endpoint it picked, `tries` the attempts
      left in the load balancer, `last` whether it brought the endpoint's InFlight to zero. */
  datatype Phase = Phase(at: Place, end: nat, tries: nat, last: bool)

  /** A drain under way: what it was asked for, the endpoints still to mark, the barriers so far. */
  datatype Drain = Drain(infos: seq<Info>, todo: seq<nat>, barriers: seq<nat>)

  /** Who holds the metadata lock: an AddEndpoints call that is about to take the next waiter or is
      sending to one, or a drain at one of its steps on an endpoint. */
  datatype Holder =
    | Free
    | Waking
    | Sending(request: nat)
    | Draining(drain: Drain)
    | Marked(end: nat, drain: Drain)
    | Opened(end: nat, drain: Drain)
    | Filling(end: nat, drain: Drain)

  /** `metric` is the in-flight count reported to the autoscaler; `barred` are the endpoints whose
      drain has released the lock and waits for the draining channel. */
  datatype State = State(
    ends: map<nat, End>, nextEnd: nat, list: seq<nat>, active: int,
    requests: map<nat, Phase>, channels: map<nat, Chan>, queue: seq<nat>, queueDepth: int, metric: int,
    barred: set<nat>, holder: Holder)

  const EMPTY := State(map[], 0, [], 0, map[], map[], [], 0, 0, {}, Free)
  const ARRIVED := Phase(Arrived, 0, 0, false)
  const LB_RETRIES := 60

  /** The steps of one request's goroutine. PickNil is the dereference of a nil endpoint when none is
      listed: the handler panics, and its deferred calls run as for any other end of the request. */
  datatype Move =
    | Load | Enqueue | Receive | Enter | Pick(end: nat) | PickNil | TakeToken | TimeOut | Exhaust | Count | Leave
    | Release | CheckDrained | Evaluate | Signal | GiveToken | Finish

  datatype Action =
    | Arrive(request: nat)
    | Go(request: nat, move: Move)
    | Cancel(request: nat)
    | AddLock(added: seq<Info>)
    | AddPop
    | AddSend
    | AddUnlock
    | DrainLock(gone: seq<Info>)
    | Mark
    | Open
    | Probe
    | Fill
    | DrainUnlock
    | RemoveAll
    | Await(end: nat)

  // --- One request -------------------------------------------------------------------------------

  function From(m: Move): Place {
    match m
    case Load => Arrived
    case Enqueue => Cold
    case Receive => Waiting
    case Enter => Admitted
    case Pick(_) => Balancing
    case PickNil => Balancing
    case TakeToken => Picked
    case TimeOut => Picked
    case Exhaust => Balancing
    case Count => Holding
    case Leave => Counted
    case Release => Running
    case CheckDrained => Releasing
    case Evaluate => Signalling
    case Signal => Posting
    case GiveToken => Returning
    case Finish => Leaving
  }

  /** What a move needs besides the goroutine being at the right place. Picking takes the read lock;
      a send on a full draining channel blocks. A nil draining channel is found by Evaluate, and the
      send on it never happens. */
  predicate Guard(s: State, r: nat, q: Phase, m: Move) {
    match m
    case Enqueue => s.holder == Free
    case Receive => r in s.channels && s.channels[r].buffer != []
    case Pick(e) => q.tries > 0 && e in s.list && s.holder == Free
    case PickNil => q.tries > 0 && s.list == [] && s.holder == Free
    case TakeToken => q.end in s.ends && s.ends[q.end].tokens > 0
    case TimeOut => q.tries > 0
    case Exhaust => q.tries == 0
    case Signal => q.end in s.ends && s.ends[q.end].callback == Some(false)
    case _ => true
  }

  predicate CanGo(s: State, r: nat, m: Move) {
    r in s.requests && s.requests[r].at == From(m) && Guard(s, r, s.requests[r], m)
  }

  /** The next thing in the wait channel is a success. */
  predicate HasSuccess(s: State, r: nat) {
    r in s.channels && s.channels[r].buffer != [] && s.channels[r].buffer[0] == Success
  }

  function Next(s: State, r: nat, q: Phase, m: Move): Phase {
    match m
    case Load => q.(at := if s.active == 0 then Cold else Admitted)
    case Enqueue => q.(at := Waiting)
    case Receive => q.(at := if HasSuccess(s, r) then Admitted else Leaving)
    case Enter => q.(at := Balancing, tries := LB_RETRIES)
    case Pick(e) => q.(at := Picked, end := e)
    case PickNil => q.(at := Leaving)
    case TakeToken => q.(at := Holding)
    case TimeOut => q.(at := Balancing, tries := if q.tries > 0 then q.tries - 1 else 0)
    case Exhaust => q.(at := Leaving)
    case Count => q.(at := Counted)
    case Leave => q.(at := Running)
    case Release => q.(at := Releasing, last := q.end in s.ends && s.ends[q.end].inFlight - 1 == 0)
    case CheckDrained => q.(at := if q.last && q.end in s.ends && s.ends[q.end].drained then Signalling else Returning)
    case Evaluate => q.(at := if q.end in s.ends && s.ends[q.end].callback.Some? then Posting else Stuck)
    case Signal => q.(at := Returning)
    case GiveToken => q.(at := Leaving)
    case Finish => q.(at := Done)
  }

  /** What a move does to the endpoint the request has picked. */
  function Touched(x: End, m: Move): End {
    match m
    case TakeToken => x.(tokens := x.tokens - 1)
    case Count => x.(inFlight := x.inFlight + 1)
    case Release => x.(inFlight := x.inFlight - 1)
    case Signal => x.(callback := Some(true))
    case GiveToken => x.(tokens := x.tokens + 1)
    case _ => x
  }

  /** What a move does to the QueueDepth statistic. */
  function Depth(m: Move): int {
    match m
    case Enqueue => 1
    case Receive => -1
    case Enter => 1
    case PickNil => -1
    case Exhaust => -1
    case Leave => -1
    case _ => 0
  }

  function ChannelsAfter(s: State, r: nat, m: Move): map<nat, Chan> {
    match m
    case Enqueue => s.channels[r := Chan([], false, false, 0)]
    case Receive =>
      if r in s.channels && s.channels[r].buffer != [] then
        s.channels[r := s.channels[r].(buffer := s.channels[r].buffer[1..], received := s.channels[r].received + 1)]
      else s.channels
    case _ => s.channels
  }

  function GoStep(s: State, r: nat, m: Move): State
    requires CanGo(s, r, m)
  {
    var q := s.requests[r];
    s.(requests := s.requests[r := Next(s, r, q, m)],
       ends := if q.end in s.ends then s.ends[q.end := Touched(s.ends[q.end], m)] else s.ends,
       queueDepth := s.queueDepth + Depth(m),
       metric := if m == Finish then s.metric - 1 else s.metric,
       channels := ChannelsAfter(s, r, m),
       queue := if m == Enqueue then s.queue + [r] else s.queue)
  }

  // --- The critical sections -----------------------------------------------------------------------

  /** A new endpoint has all its tokens. */
  function NewEnd(par: nat, info: Info): End {
    End(info.id, info.url, par, 0, false, None)
  }

  function FreshIds(first: nat, n: nat): (ids: set<nat>)
    ensures forall e :: e in ids <==> first <= e < first + n
  {
    if n == 0 then {} else FreshIds(first, n - 1) + {first + n - 1}
  }

  function NewEnds(par: nat, first: nat, infos: seq<Info>): map<nat, End> {
    map e | e in FreshIds(first, |infos|) :: NewEnd(par, infos[e - first])
  }

  function Added(par: nat, s: State, infos: seq<Info>): State {
    var list := s.list + seq(|infos|, i => s.nextEnd + i);
    s.(ends := s.ends + NewEnds(par, s.nextEnd, infos), nextEnd := s.nextEnd + |infos|,
       list := list, active := |list|, holder := Waking)
  }

  predicate HasId(infos: seq<Info>, id: string) {
    exists i :: 0 <= i < |infos| && infos[i].id == id
  }

  /** The listed endpoints a drain names by id. */
  function Matching(ends: map<nat, End>, list: seq<nat>, infos: seq<Info>): seq<nat> {
    if list == [] then []
    else if list[0] in ends && HasId(infos, ends[list[0]].id) then [list[0]] + Matching(ends, list[1..], infos)
    else Matching(ends, list[1..], infos)
  }

  /** Removes the first endpoint with the URL, if there is one. */
  function RemoveUrl(ends: map<nat, End>, list: seq<nat>, url: string): seq<nat> {
    if list == [] then []
    else if list[0] in ends && ends[list[0]].url == url then list[1..]
    else [list[0]] + RemoveUrl(ends, list[1..], url)
  }

  function RemoveUrls(ends: map<nat, End>, list: seq<nat>, infos: seq<Info>): seq<nat>
    decreases |infos|
  {
    if infos == [] then list else RemoveUrls(ends, RemoveUrl(ends, list, infos[0].url), infos[1..])
  }

  predicate Enabled(s: State, a: Action) {
    match a
    case Arrive(r) => r !in s.requests
    case Go(r, m) => CanGo(s, r, m)
    case Cancel(r) => r in s.channels && !s.channels[r].canceled && s.channels[r].buffer == []
    case AddLock(_) => s.holder == Free
    case AddPop => s.holder == Waking && s.queue != [] && s.list != []
    case AddSend => s.holder.Sending? && s.holder.request in s.channels && s.channels[s.holder.request].buffer == []
    case AddUnlock => s.holder == Waking && (s.queue == [] || s.list == [])
    case DrainLock(_) => s.holder == Free
    case Mark => s.holder.Draining? && s.holder.drain.todo != [] && s.holder.drain.todo[0] in s.ends
    case Open => s.holder.Marked? && s.holder.end in s.ends
    case Probe => s.holder.Opened? && s.holder.end in s.ends
    case Fill => s.holder.Filling? && s.holder.end in s.ends && s.ends[s.holder.end].callback == Some(false)
    case DrainUnlock => s.holder.Draining? && s.holder.drain.todo == []
    case RemoveAll => s.holder == Free
    case Await(e) => e in s.barred && e in s.ends && s.ends[e].callback == Some(true)
  }

  /** Sets the drained flag; the endpoint is taken up only if the flag was clear. */
  function MarkStep(s: State): State
    requires Enabled(s, Mark)
  {
    var d := s.holder.drain;
    var e := d.todo[0];
    var rest := d.(todo := d.todo[1..]);
    s.(holder := if s.ends[e].drained then Draining(rest) else Marked(e, rest),
       ends := s.ends[e := s.ends[e].(drained := true)])
  }

  /** Makes the draining channel and remembers it as a barrier. */
  function OpenStep(s: State): State
    requires Enabled(s, Open)
  {
    var e := s.holder.end;
    var d := s.holder.drain;
    s.(holder := Opened(e, d.(barriers := d.barriers + [e])), ends := s.ends[e := s.ends[e].(callback := Some(false))])
  }

  function Apply(par: nat, s: State, a: Action): State
    requires Enabled(s, a)
  {
    match a
    case Arrive(r) => s.(requests := s.requests[r := ARRIVED], metric := s.metric + 1)
    case Go(r, m) => GoStep(s, r, m)
    case Cancel(r) => s.(channels := s.channels[r := s.channels[r].(buffer := [Canceled], canceled := true)])
    case AddLock(infos) => Added(par, s, infos)
    case AddPop => s.(queue := s.queue[1..], holder := Sending(s.queue[0]))
    case AddSend =>
      var r := s.holder.request;
      s.(holder := Waking, channels := s.channels[r := s.channels[r].(buffer := [Success], woken := true)])
    case AddUnlock => s.(holder := Free)
    case DrainLock(infos) => s.(holder := Draining(Drain(infos, Matching(s.ends, s.list, infos), [])))
    case Mark => MarkStep(s)
    case Open => OpenStep(s)
    case Probe =>
      var d := s.holder.drain;
      s.(holder := if s.ends[s.holder.end].inFlight == 0 then Filling(s.holder.end, d) else Draining(d))
    case Fill =>
      var e := s.holder.end;
      s.(holder := Draining(s.holder.drain), ends := s.ends[e := s.ends[e].(callback := Some(true))])
    case DrainUnlock =>
      var list := RemoveUrls(s.ends, s.list, s.holder.drain.infos);
      var barred := s.barred + (set e | e in s.holder.drain.barriers);
      s.(list := list, active := |list|, barred := barred, holder := Free)
    case RemoveAll => s.(list := [], active := 0)
    case Await(e) => s.(ends := s.ends[e := s.ends[e].(callback := Some(false))], barred := s.barred - {e})
  }

  predicate Legal(par: nat, s: State, run: seq<Action>)
    decreases |run|
  {
    run == [] || (Enabled(s, run[0]) && Legal(par, Apply(par, s, run[0]), run[1..]))
  }

  function Exec(par: nat, s: State, run: seq<Action>): State
    requires Legal(par, s, run)
    decreases |run|
  {
    if run == [] then s else Exec(par, Apply(par, s, run[0]), run[1..])
  }
}
