/** The metadata of one function in the data plane, updated in place. Every method is proved to move
    the object along a legal run of the admission machine, so the theorems about runs apply to it. */
module FunctionMetadata {
  import opened Basics
  import opened Options
  import opened Admission
  import opened AdmissionBounds
  import opened WakeUps
  import opened Reachability
  import opened RequestRuns

  /** Fills a throttler channel with one token per permitted request. */
  method CreateThrottlerChannel(capacity: nat) returns (tokens: nat)
    ensures tokens == capacity
  {
    tokens := 0;
    while tokens < capacity
      invariant tokens <= capacity
    {
      tokens := tokens + 1;
    }
  }

  predicate AllKnown(ends: map<nat, End>, list: seq<nat>) {
    forall i :: 0 <= i < |list| ==> list[i] in ends
  }

  /** The endpoint at `j`, the first with the URL, has left the list. */
  predicate DropsAt(ends: map<nat, End>, list: seq<nat>, url: string, j: int, rest: seq<nat>)
    requires AllKnown(ends, list)
  {
    && 0 <= j < |list| && ends[list[j]].url == url && rest == list[..j] + list[j + 1..]
    && forall k :: 0 <= k < j ==> ends[list[k]].url != url
  }

  lemma {:induction false} RemoveUrlAt(ends: map<nat, End>, list: seq<nat>, url: string, j: nat)
    requires AllKnown(ends, list) && j < |list| && ends[list[j]].url == url
    requires forall k :: 0 <= k < j ==> ends[list[k]].url != url
    ensures RemoveUrl(ends, list, url) == list[..j] + list[j + 1..]
  {
    if j == 0 {
      assert list[..0] + list[1..] == list[1..];
    } else {
      RemoveUrlAt(ends, list[1..], url, j - 1);
      assert list[..j] == [list[0]] + list[1..][..j - 1];
    }
  }

  lemma {:induction false} RemoveUrlAbsent(ends: map<nat, End>, list: seq<nat>, url: string)
    requires AllKnown(ends, list) && forall k :: 0 <= k < |list| ==> ends[list[k]].url != url
    ensures RemoveUrl(ends, list, url) == list
  {
    if list != [] {
      RemoveUrlAbsent(ends, list[1..], url);
    }
  }

  predicate HasUrl(infos: seq<Info>, url: string) {
    exists i :: 0 <= i < |infos| && infos[i].url == url
  }

  predicate UrlsDiffer(ends: map<nat, End>, list: seq<nat>) {
    AllKnown(ends, list) && forall i, j :: 0 <= i < j < |list| ==> ends[list[i]].url != ends[list[j]].url
  }

  /** The listed endpoints with other URLs, in order. */
  function Unnamed(ends: map<nat, End>, list: seq<nat>, infos: seq<Info>): seq<nat> {
    if list == [] then []
    else
      (if list[0] in ends && HasUrl(infos, ends[list[0]].url) then [] else [list[0]]) + Unnamed(ends, list[1..], infos)
  }

  lemma {:induction false} UnnamedMembers(ends: map<nat, End>, list: seq<nat>, infos: seq<Info>)
    ensures forall e :: e in Unnamed(ends, list, infos) <==> e in list && !(e in ends && HasUrl(infos, ends[e].url))
  {
    if list != [] {
      UnnamedMembers(ends, list[1..], infos);
      assert list == [list[0]] + list[1..];
    }
  }

  lemma {:induction false} RemoveUrlUnnamed(ends: map<nat, End>, list: seq<nat>, url: string)
    requires UrlsDiffer(ends, list)
    ensures RemoveUrl(ends, list, url) == Unnamed(ends, list, [Info("", url)])
  {
    var one := [Info("", url)];
    assert one[0].url == url;
    if list != [] {
      RemoveUrlUnnamed(ends, list[1..], url);
      if ends[list[0]].url == url {
        NoneNamed(ends, list[1..], one);
      }
    }
  }

  lemma {:induction false} NoneNamed(ends: map<nat, End>, list: seq<nat>, infos: seq<Info>)
    requires AllKnown(ends, list) && forall i :: 0 <= i < |list| ==> !HasUrl(infos, ends[list[i]].url)
    ensures Unnamed(ends, list, infos) == list
  {
    if list != [] {
      NoneNamed(ends, list[1..], infos);
    }
  }

  lemma {:induction false} UnnamedTwice(ends: map<nat, End>, list: seq<nat>, info: Info, infos: seq<Info>)
    requires AllKnown(ends, list)
    ensures Unnamed(ends, Unnamed(ends, list, [Info("", info.url)]), infos) == Unnamed(ends, list, [info] + infos)
  {
    if list != [] {
      UnnamedTwice(ends, list[1..], info, infos);
      NamedByEither(info, infos, ends[list[0]].url);
      var rest := Unnamed(ends, list[1..], [Info("", info.url)]);
      if HasUrl([Info("", info.url)], ends[list[0]].url) {
        assert Unnamed(ends, list, [Info("", info.url)]) == rest;
      } else {
        assert Unnamed(ends, list, [Info("", info.url)]) == [list[0]] + rest;
        assert ([list[0]] + rest)[1..] == rest;
      }
    }
  }

  lemma NamedByEither(info: Info, infos: seq<Info>, url: string)
    ensures HasUrl([info] + infos, url) <==> HasUrl([Info("", info.url)], url) || HasUrl(infos, url)
  {
    if HasUrl(infos, url) {
      var i :| 0 <= i < |infos| && infos[i].url == url;
      assert ([info] + infos)[i + 1].url == url;
    }
    if info.url == url {
      assert ([info] + infos)[0].url == url && [Info("", info.url)][0].url == url;
    }
  }

  lemma {:induction false} UnnamedDiffer(ends: map<nat, End>, list: seq<nat>, infos: seq<Info>)
    requires UrlsDiffer(ends, list)
    ensures UrlsDiffer(ends, Unnamed(ends, list, infos))
  {
    if list != [] {
      UnnamedDiffer(ends, list[1..], infos);
      UnnamedMembers(ends, list[1..], infos);
      ConsDiffer(ends, list[0], Unnamed(ends, list[1..], infos), list);
    }
  }

  lemma ConsDiffer(ends: map<nat, End>, e: nat, rest: seq<nat>, list: seq<nat>)
    requires UrlsDiffer(ends, list) && list != [] && e == list[0] && UrlsDiffer(ends, rest)
    requires forall d :: d in rest ==> d in list[1..]
    ensures UrlsDiffer(ends, [e] + rest)
  {
    forall i | 0 <= i < |rest| ensures ends[rest[i]].url != ends[e].url {
      assert rest[i] in list[1..];
    }
  }

  /** Where no two listed endpoints share a URL, exactly those with a URL that is named are removed, and the
      others stay in order. */
  lemma {:induction false} RemovedExactly(ends: map<nat, End>, list: seq<nat>, infos: seq<Info>)
    requires UrlsDiffer(ends, list)
    ensures RemoveUrls(ends, list, infos) == Unnamed(ends, list, infos)
    decreases |infos|
  {
    if infos == [] {
      NoneNamed(ends, list, infos);
    } else {
      var rest := RemoveUrl(ends, list, infos[0].url);
      RemoveUrlUnnamed(ends, list, infos[0].url);
      UnnamedDiffer(ends, list, [Info("", infos[0].url)]);
      RemovedExactly(ends, rest, infos[1..]);
      UnnamedTwice(ends, list, infos[0], infos[1..]);
      assert [infos[0]] + infos[1..] == infos;
    }
  }

  lemma {:induction false} RemoveUrlsSnoc(ends: map<nat, End>, list: seq<nat>, infos: seq<Info>, info: Info)
    ensures RemoveUrls(ends, list, infos + [info]) == RemoveUrl(ends, RemoveUrls(ends, list, infos), info.url)
    decreases |infos|
  {
    if infos == [] {
      assert ([info])[1..] == [];
    } else {
      RemoveUrlsSnoc(ends, RemoveUrl(ends, list, infos[0].url), infos[1..], info);
      assert (infos + [info])[1..] == infos[1..] + [info];
    }
  }

  lemma NewEndsAt(par: nat, ends: map<nat, End>, first: nat, data: seq<Info>)
    ensures FreshFrom(ends + NewEnds(par, first, data), par, first, data)
  {
  }

  /** The endpoints sent are there under consecutive numbers, with all their tokens and nothing in flight. */
  ghost predicate FreshFrom(ends: map<nat, End>, par: nat, first: nat, data: seq<Info>) {
    forall i | 0 <= i < |data| ::
      first + i in ends && ends[first + i] == End(data[i].id, data[i].url, par, 0, false, None)
  }

  lemma AddedSnoc(par: nat, ends: map<nat, End>, first: nat, data: seq<Info>, i: nat)
    requires i < |data|
    ensures ends + NewEnds(par, first, data[..i + 1]) ==
      (ends + NewEnds(par, first, data[..i]))[first + i := NewEnd(par, data[i])]
    ensures seq(i + 1, k => first + k) == seq(i, k => first + k) + [first + i]
  {
  }

  /** Exactly the given waiters have been woken in addition. */
  ghost predicate WokenAfter(before: map<nat, Chan>, after: map<nat, Chan>, waiters: set<nat>) {
    && before.Keys == after.Keys
    && (forall r :: r in before ==> (after[r].woken <==> before[r].woken || r in waiters))
  }

  lemma WokenLater(before: map<nat, Chan>, mid: map<nat, Chan>, r: nat)
    requires WokenAfter(before, mid, {})
    ensures forall after :: WokenAfter(mid, after, {r}) ==> WokenAfter(before, after, {r})
  {
  }

  lemma WokenMore(start: map<nat, Chan>, queued: seq<nat>, was: map<nat, Chan>, now: map<nat, Chan>, waiters: seq<nat>)
    requires WokenAfter(start, was, Elements(queued) - Elements(waiters))
    requires waiters != [] && WokenAfter(was, now, {waiters[0]}) && waiters[0] !in waiters[1..]
    requires Elements(waiters) <= Elements(queued)
    ensures WokenAfter(start, now, Elements(queued) - Elements(waiters[1..]))
    ensures Elements(waiters[1..]) <= Elements(queued)
  {
  }

  /** Whoever has not been woken and has something in the buffer is still there to receive it. */
  lemma MayReceive(s: State, r: nat)
    requires WakeOk(s) && r in s.channels && !s.channels[r].woken && s.channels[r].buffer != []
    ensures CanGo(s, r, Receive)
    ensures GoStep(s, r, Receive) == s.(
      requests := GoStep(s, r, Receive).requests, queueDepth := s.queueDepth - 1,
      channels := s.channels[r := s.channels[r].(buffer := [], received := 1)])
  {
    assert ChanOk(s.requests[r].at, s.channels[r]);
    assert s.channels[r].buffer[1..] == [];
    assert GoStep(s, r, Receive).ends == s.ends;
  }

  lemma Proceed(par: nat, start: State, run: seq<Action>, s: State, a: Action)
    requires Leads(par, start, run, s) && WakeOk(s) && Enabled(s, a)
    ensures Leads(par, start, run + [a], Apply(par, s, a)) && WakeOk(Apply(par, s, a))
  {
    Append(par, start, run, s, a);
    WakeStep(par, s, a);
  }

  /** What a drain does to an endpoint it names, when no request interferes. */
  function MarkEnd(x: End): End {
    if x.drained then x else x.(drained := true, callback := Some(x.inFlight == 0))
  }

  function AfterMark(d: Drain, swapped: bool, e: nat): Drain
    requires d.todo != []
  {
    Drain(d.infos, d.todo[1..], if swapped then d.barriers + [e] else d.barriers)
  }

  /** Exactly the endpoints that are both listed and named have been marked. */
  ghost predicate MarkedUpTo(before: map<nat, End>, after: map<nat, End>, infos: seq<Info>, list: seq<nat>) {
    && before.Keys == after.Keys
    && (forall e | e in before ::
          after[e] == if e in list && HasId(infos, before[e].id) then MarkEnd(before[e]) else before[e])
  }

  lemma MarkedOneMore(was: map<nat, End>, prior: map<nat, End>, now: map<nat, End>, infos: seq<Info>, list: seq<nat>,
                      e: nat)
    requires MarkedUpTo(was, prior, infos, list) && e in was && HasId(infos, was[e].id)
    requires now == prior[e := MarkEnd(prior[e])]
    ensures MarkedUpTo(was, now, infos, list + [e])
  {
  }

  /** Exactly the endpoints that are listed and named and were not flagged before, once each. */
  ghost predicate BarriersOf(before: map<nat, End>, infos: seq<Info>, list: seq<nat>, barriers: seq<nat>) {
    && (forall e :: e in barriers <==> e in list && e in before && HasId(infos, before[e].id) && !before[e].drained)
    && (forall i, j :: 0 <= i < j < |barriers| ==> barriers[i] != barriers[j])
  }

  lemma BarriersMore(was: map<nat, End>, now: map<nat, End>, infos: seq<Info>, list: seq<nat>, barriers: seq<nat>,
                     e: nat)
    requires MarkedUpTo(was, now, infos, list) && BarriersOf(was, infos, list, barriers) && e in was
    ensures BarriersOf(was, infos, list + [e],
                       if HasId(infos, now[e].id) && !now[e].drained then barriers + [e] else barriers)
  {
    assert now[e].id == was[e].id;
    assert HasId(infos, now[e].id) && !now[e].drained ==> e !in barriers && e !in list;
  }

  lemma MatchingNext(ends: map<nat, End>, list: seq<nat>, infos: seq<Info>, i: nat)
    requires i < |list| && list[i] in ends
    ensures Matching(ends, list[i..], infos) ==
      (if HasId(infos, ends[list[i]].id) then [list[i]] else []) + Matching(ends, list[i + 1..], infos)
  {
  }

  /** The endpoints a policy picks, one per attempt, and whether the token comes before the timer. */
  predicate PicksOk(list: seq<nat>, picks: seq<nat>, granted: seq<bool>) {
    && |picks| == LB_RETRIES && |granted| == LB_RETRIES
    && forall i :: 0 <= i < LB_RETRIES ==> picks[i] in list
  }

  /** The given attempt gets a token. */
  predicate Grants(ends: map<nat, End>, picks: seq<nat>, granted: seq<bool>, i: nat) {
    i < |picks| && i < |granted| && granted[i] && picks[i] in ends && ends[picks[i]].tokens > 0
  }

  predicate NeverGrants(ends: map<nat, End>, picks: seq<nat>, granted: seq<bool>, n: nat) {
    forall i | 0 <= i < n :: !Grants(ends, picks, granted, i)
  }

  /** The endpoint is the pick of the first attempt that gets a token. */
  ghost predicate FirstGrant(ends: map<nat, End>, picks: seq<nat>, granted: seq<bool>, e: nat) {
    exists i: nat ::
      i < |picks| && picks[i] == e && Grants(ends, picks, granted, i) && NeverGrants(ends, picks, granted, i)
  }

  class FunctionMetadata {
    const sandboxParallelism: nat
    var endpoints: map<nat, End>
    var created: nat
    var upstreamEndpoints: seq<nat>
    var activeEndpointCount: int
    var queue: seq<nat>
    var channels: map<nat, Chan>
    var queueDepth: int
    var inflightRequests: int
    ghost var requests: map<nat, Phase>
    ghost var barred: set<nat>
    ghost var holder: Holder

    ghost function View(): State
      reads this
    {
      State(endpoints, created, upstreamEndpoints, activeEndpointCount, requests, channels, queue, queueDepth,
            inflightRequests, barred, holder)
    }

    constructor (parallelism: nat)
      ensures sandboxParallelism == parallelism && View() == EMPTY
    {
      sandboxParallelism := parallelism;
      endpoints, created, upstreamEndpoints, activeEndpointCount := map[], 0, [], 0;
      queue, channels, queueDepth, inflightRequests := [], map[], 0, 0;
      requests, barred, holder := map[], {}, Free;
    }

    method AddOne(info: Info)
      modifies this`endpoints, this`created, this`upstreamEndpoints
      ensures endpoints == old(endpoints)[old(created) := NewEnd(sandboxParallelism, info)]
      ensures upstreamEndpoints == old(upstreamEndpoints) + [old(created)] && created == old(created) + 1
    {
      var tokens := CreateThrottlerChannel(sandboxParallelism);
      endpoints := endpoints[created := End(info.id, info.url, tokens, 0, false, None)];
      upstreamEndpoints := upstreamEndpoints + [created];
      created := created + 1;
    }

    method AddToEndpointList(data: seq<Info>)
      modifies this`endpoints, this`created, this`upstreamEndpoints
      ensures endpoints == old(endpoints) + NewEnds(sandboxParallelism, old(created), data)
      ensures created == old(created) + |data|
      ensures FreshFrom(endpoints, sandboxParallelism, old(created), data)
      ensures upstreamEndpoints == old(upstreamEndpoints) + seq(|data|, i => old(created) + i)
    {
      var i := 0;
      while i < |data|
        invariant i <= |data| && created == old(created) + i
        invariant endpoints == old(endpoints) + NewEnds(sandboxParallelism, old(created), data[..i])
        invariant upstreamEndpoints == old(upstreamEndpoints) + seq(i, k => old(created) + k)
      {
        AddedSnoc(sandboxParallelism, old(endpoints), old(created), data, i);
        AddOne(data[i]);
        i := i + 1;
      }
      assert data[..i] == data;
      NewEndsAt(sandboxParallelism, old(endpoints), old(created), data);
    }

    /** The object is where the run leads, and its wait channels and queue are in order. */
    ghost predicate OnRun(start: State, run: seq<Action>)
      reads this
    {
      Leads(sandboxParallelism, start, run, View()) && WakeOk(View())
    }

    /** Adds the endpoints under the lock and wakes every waiter. Where a waiter's buffer holds a
        cancel, the send goes through once its owner has received. */
    method AddEndpoints(infos: seq<Info>) returns (ghost run: seq<Action>)
      requires holder == Free && WakeOk(View())
      modifies this
      ensures OnRun(old(View()), run) && holder == Free
      ensures upstreamEndpoints == old(upstreamEndpoints) + seq(|infos|, i => old(created) + i)
      ensures activeEndpointCount == |upstreamEndpoints|
      ensures FreshFrom(endpoints, sandboxParallelism, old(created), infos) && created == old(created) + |infos|
      ensures queue == if upstreamEndpoints == [] then old(queue) else []
      ensures WokenAfter(old(channels), channels, if upstreamEndpoints == [] then {} else Elements(old(queue)))
    {
      ghost var start := View();
      run := Publish(infos);
      if |upstreamEndpoints| > 0 {
        run := WakeAll(start, run);
      }
      Proceed(sandboxParallelism, start, run, View(), AddUnlock);
      run := run + [AddUnlock];
      holder := Free;
    }

    /** Takes the lock and lists the endpoints. */
    method Publish(infos: seq<Info>) returns (ghost run: seq<Action>)
      requires holder == Free && WakeOk(View())
      modifies this`endpoints, this`created, this`upstreamEndpoints, this`activeEndpointCount, this`holder
      ensures OnRun(old(View()), run) && holder == Waking
      ensures upstreamEndpoints == old(upstreamEndpoints) + seq(|infos|, i => old(created) + i)
      ensures activeEndpointCount == |upstreamEndpoints|
      ensures FreshFrom(endpoints, sandboxParallelism, old(created), infos) && created == old(created) + |infos|
    {
      ghost var start := View();
      Proceed(sandboxParallelism, start, [], start, AddLock(infos));
      run := [] + [AddLock(infos)];
      AddToEndpointList(infos);
      activeEndpointCount := |upstreamEndpoints|;
      holder := Waking;
      assert View() == Apply(sandboxParallelism, start, AddLock(infos));
    }

    /** Empties the queue. */
    method WakeAll(ghost start: State, ghost before: seq<Action>) returns (ghost run: seq<Action>)
      requires OnRun(start, before) && holder == Waking && upstreamEndpoints != []
      modifies this`queue, this`channels, this`requests, this`queueDepth, this`holder
      ensures OnRun(start, run) && holder == Waking && queue == []
      ensures WokenAfter(old(channels), channels, Elements(old(queue)))
    {
      run := before;
      while |queue| > 0
        invariant OnRun(start, run) && holder == Waking
        invariant WokenAfter(old(channels), channels, Elements(old(queue)) - Elements(queue))
        invariant Elements(queue) <= Elements(old(queue))
        decreases |queue|
      {
        ghost var was := channels;
        ghost var waiters := queue;
        run := WakeOne(start, run);
        WokenMore(old(channels), old(queue), was, channels, waiters);
      }
    }

    /** Takes the first waiter off the queue and sends it a success. */
    method WakeOne(ghost start: State, ghost before: seq<Action>) returns (ghost run: seq<Action>)
      requires OnRun(start, before)
      requires holder == Waking && queue != [] && upstreamEndpoints != []
      modifies this`queue, this`channels, this`requests, this`queueDepth, this`holder
      ensures OnRun(start, run) && holder == Waking && queue == old(queue[1..])
      ensures old(queue[0]) !in queue && WokenAfter(old(channels), channels, {old(queue[0])})
    {
      ghost var was := channels;
      var r;
      r, run := PopWaiter(start, before);
      run := MakeRoom(start, run, r);
      WokenLater(was, channels, r);
      run := SendSuccess(start, run, r);
    }

    /** If the buffer of the waiter is full, the send waits for its owner. */
    method MakeRoom(ghost start: State, ghost before: seq<Action>, r: nat) returns (ghost run: seq<Action>)
      requires OnRun(start, before) && r in channels && !channels[r].woken
      modifies this`channels, this`requests, this`queueDepth
      ensures OnRun(start, run) && WokenAfter(old(channels), channels, {}) && channels[r].buffer == []
    {
      run := before;
      if channels[r].buffer != [] {
        run := OwnerReceives(start, run, r);
      }
    }

    method PopWaiter(ghost start: State, ghost before: seq<Action>) returns (r: nat, ghost run: seq<Action>)
      requires OnRun(start, before)
      requires holder == Waking && queue != [] && upstreamEndpoints != []
      modifies this`queue, this`holder
      ensures OnRun(start, run) && r == old(queue[0]) && queue == old(queue[1..]) && holder == Sending(r)
      ensures r in channels && !channels[r].woken && r !in queue
    {
      Proceed(sandboxParallelism, start, before, View(), AddPop);
      run := before + [AddPop];
      r := queue[0];
      queue := queue[1..];
      holder := Sending(r);
    }

    method SendSuccess(ghost start: State, ghost before: seq<Action>, r: nat) returns (ghost run: seq<Action>)
      requires OnRun(start, before)
      requires holder == Sending(r) && r in channels && channels[r].buffer == []
      modifies this`channels, this`holder
      ensures OnRun(start, run)
      ensures holder == Waking && WokenAfter(old(channels), channels, {r})
    {
      Proceed(sandboxParallelism, start, before, View(), AddSend);
      run := before + [AddSend];
      channels := channels[r := channels[r].(buffer := [Success], woken := true)];
      holder := Waking;
    }

    /** The owner of a full wait channel takes what is in it. */
    method OwnerReceives(ghost start: State, ghost before: seq<Action>, r: nat) returns (ghost run: seq<Action>)
      requires OnRun(start, before)
      requires r in channels && !channels[r].woken && channels[r].buffer != []
      modifies this`channels, this`requests, this`queueDepth
      ensures OnRun(start, run)
      ensures WokenAfter(old(channels), channels, {}) && channels[r].buffer == []
    {
      MayReceive(View(), r);
      ghost var next := GoStep(View(), r, Receive);
      Proceed(sandboxParallelism, start, before, View(), Go(r, Receive));
      run := before + [Go(r, Receive)];
      channels := channels[r := channels[r].(buffer := [], received := 1)];
      queueDepth := queueDepth - 1;
      requests := next.requests;
    }

    /** Removes, for every endpoint named, the first listed one with its URL. */
    method RemoveEndpoints(infos: seq<Info>)
      requires AllKnown(endpoints, upstreamEndpoints)
      modifies this`upstreamEndpoints, this`activeEndpointCount
      ensures upstreamEndpoints == RemoveUrls(endpoints, old(upstreamEndpoints), infos)
      ensures activeEndpointCount == |upstreamEndpoints| && AllKnown(endpoints, upstreamEndpoints)
      ensures old(UrlsDiffer(endpoints, upstreamEndpoints)) ==>
        upstreamEndpoints == Unnamed(endpoints, old(upstreamEndpoints), infos)
    {
      if UrlsDiffer(endpoints, upstreamEndpoints) {
        RemovedExactly(endpoints, upstreamEndpoints, infos);
      }
      var i := 0;
      while i < |infos|
        invariant i <= |infos| && AllKnown(endpoints, upstreamEndpoints)
        invariant upstreamEndpoints == RemoveUrls(endpoints, old(upstreamEndpoints), infos[..i])
      {
        RemoveFirst(infos[i].url);
        RemoveUrlsSnoc(endpoints, old(upstreamEndpoints), infos[..i], infos[i]);
        assert infos[..i + 1] == infos[..i] + [infos[i]];
        i := i + 1;
      }
      assert infos[..i] == infos;
      activeEndpointCount := |upstreamEndpoints|;
    }

    method RemoveFirst(url: string)
      requires AllKnown(endpoints, upstreamEndpoints)
      modifies this`upstreamEndpoints
      ensures upstreamEndpoints == RemoveUrl(endpoints, old(upstreamEndpoints), url)
      ensures AllKnown(endpoints, upstreamEndpoints)
      ensures (exists j :: DropsAt(endpoints, old(upstreamEndpoints), url, j, upstreamEndpoints))
        || (upstreamEndpoints == old(upstreamEndpoints)
            && forall e :: e in upstreamEndpoints ==> endpoints[e].url != url)
    {
      var j := 0;
      while j < |upstreamEndpoints|
        invariant j <= |upstreamEndpoints| && upstreamEndpoints == old(upstreamEndpoints)
        invariant forall k :: 0 <= k < j ==> endpoints[upstreamEndpoints[k]].url != url
      {
        if endpoints[upstreamEndpoints[j]].url == url {
          RemoveUrlAt(endpoints, upstreamEndpoints, url, j);
          upstreamEndpoints := upstreamEndpoints[..j] + upstreamEndpoints[j + 1..];
          assert DropsAt(endpoints, old(upstreamEndpoints), url, j, upstreamEndpoints);
          return;
        }
        j := j + 1;
      }
      RemoveUrlAbsent(endpoints, upstreamEndpoints, url);
    }

    /** Empties the list; endpoints still in use keep their tokens and counters. */
    method RemoveAllEndpoints() returns (ghost run: seq<Action>)
      requires holder == Free
      modifies this`upstreamEndpoints, this`activeEndpointCount
      ensures Leads(sandboxParallelism, old(View()), run, View()) && upstreamEndpoints == []
      ensures activeEndpointCount == 0
    {
      Append(sandboxParallelism, View(), [], View(), RemoveAll);
      run := [] + [RemoveAll];
      upstreamEndpoints := [];
      activeEndpointCount := 0;
    }

    /** Drains under the lock, with no request interfering: every listed endpoint named by id is
        flagged once, those that were not flagged before become barriers, and the channel of an idle
        one is filled. Then the endpoints named by URL leave the list. */
    method DrainEndpoints(infos: seq<Info>) returns (barriers: seq<nat>, ghost run: seq<Action>)
      requires holder == Free && AllKnown(endpoints, upstreamEndpoints)
      modifies this`endpoints, this`upstreamEndpoints, this`activeEndpointCount, this`barred, this`holder
      ensures Leads(sandboxParallelism, old(View()), run, View()) && holder == Free
      ensures MarkedUpTo(old(endpoints), endpoints, infos, old(upstreamEndpoints))
      ensures upstreamEndpoints == RemoveUrls(endpoints, old(upstreamEndpoints), infos)
      ensures activeEndpointCount == |upstreamEndpoints| && barred == old(barred) + Elements(barriers)
      ensures BarriersOf(old(endpoints), infos, old(upstreamEndpoints), barriers)
    {
      ghost var start := View();
      run := BeginDrain(infos);
      barriers, run := MarkEndpointsAsDraining(start, run, infos);
      run := EndDrain(start, run, infos, barriers);
    }

    ghost method BeginDrain(infos: seq<Info>) returns (run: seq<Action>)
      requires holder == Free
      modifies this`holder
      ensures Leads(sandboxParallelism, old(View()), run, View())
      ensures holder == Holder.Draining(Drain(infos, Matching(endpoints, upstreamEndpoints, infos), []))
    {
      Append(sandboxParallelism, View(), [], View(), DrainLock(infos));
      run := [] + [DrainLock(infos)];
      holder := Holder.Draining(Drain(infos, Matching(endpoints, upstreamEndpoints, infos), []));
    }

    /** Takes the endpoints off the list and gives up the lock. */
    method EndDrain(ghost start: State, ghost before: seq<Action>, infos: seq<Info>, ghost barriers: seq<nat>)
      returns (ghost run: seq<Action>)
      requires Leads(sandboxParallelism, start, before, View()) && AllKnown(endpoints, upstreamEndpoints)
      requires holder == Holder.Draining(Drain(infos, [], barriers))
      modifies this`upstreamEndpoints, this`activeEndpointCount, this`barred, this`holder
      ensures Leads(sandboxParallelism, start, run, View()) && holder == Free
      ensures upstreamEndpoints == RemoveUrls(endpoints, old(upstreamEndpoints), infos)
      ensures activeEndpointCount == |upstreamEndpoints| && barred == old(barred) + Elements(barriers)
    {
      Append(sandboxParallelism, start, before, View(), DrainUnlock);
      run := before + [DrainUnlock];
      RemoveEndpoints(infos);
      barred := barred + Elements(barriers);
      holder := Free;
    }

    method MarkEndpointsAsDraining(ghost start: State, ghost before: seq<Action>, infos: seq<Info>)
      returns (barriers: seq<nat>, ghost run: seq<Action>)
      requires Leads(sandboxParallelism, start, before, View()) && AllKnown(endpoints, upstreamEndpoints)
      requires holder == Holder.Draining(Drain(infos, Matching(endpoints, upstreamEndpoints, infos), []))
      modifies this`endpoints, this`holder
      ensures Leads(sandboxParallelism, start, run, View()) && AllKnown(endpoints, upstreamEndpoints)
      ensures holder == Holder.Draining(Drain(infos, [], barriers))
      ensures MarkedUpTo(old(endpoints), endpoints, infos, upstreamEndpoints)
      ensures BarriersOf(old(endpoints), infos, upstreamEndpoints, barriers)
    {
      barriers, run := [], before;
      ghost var was := endpoints;
      assert upstreamEndpoints[0..] == upstreamEndpoints && upstreamEndpoints[..0] == [];
      var i := 0;
      while i < |upstreamEndpoints|
        invariant i <= |upstreamEndpoints| && Leads(sandboxParallelism, start, run, View())
        invariant holder == Holder.Draining(Drain(infos, Matching(was, upstreamEndpoints[i..], infos), barriers))
        invariant MarkedUpTo(was, endpoints, infos, upstreamEndpoints[..i])
        invariant BarriersOf(was, infos, upstreamEndpoints[..i], barriers)
      {
        barriers, run := MarkNext(start, run, infos, was, i, barriers);
        i := i + 1;
      }
      assert upstreamEndpoints[..i] == upstreamEndpoints;
    }

    /** One turn of the marking loop. */
    method MarkNext(ghost start: State, ghost before: seq<Action>, infos: seq<Info>, ghost was: map<nat, End>, i: nat,
                    soFar: seq<nat>)
      returns (barriers: seq<nat>, ghost run: seq<Action>)
      requires i < |upstreamEndpoints| && upstreamEndpoints[i] in endpoints
      requires Leads(sandboxParallelism, start, before, View())
      requires holder == Holder.Draining(Drain(infos, Matching(was, upstreamEndpoints[i..], infos), soFar))
      requires MarkedUpTo(was, endpoints, infos, upstreamEndpoints[..i])
      requires BarriersOf(was, infos, upstreamEndpoints[..i], soFar)
      modifies this`endpoints, this`holder
      ensures Leads(sandboxParallelism, start, run, View())
      ensures holder == Holder.Draining(Drain(infos, Matching(was, upstreamEndpoints[i + 1..], infos), barriers))
      ensures MarkedUpTo(was, endpoints, infos, upstreamEndpoints[..i + 1])
      ensures BarriersOf(was, infos, upstreamEndpoints[..i + 1], barriers)
    {
      barriers, run := soFar, before;
      var e := upstreamEndpoints[i];
      MatchingNext(was, upstreamEndpoints, infos, i);
      assert upstreamEndpoints[..i + 1] == upstreamEndpoints[..i] + [e];
      BarriersMore(was, endpoints, infos, upstreamEndpoints[..i], soFar, e);
      if HasId(infos, endpoints[e].id) {
        ghost var prior := endpoints;
        var swapped;
        swapped, run := MarkOneEndpoint(start, run, e);
        barriers := if swapped then soFar + [e] else soFar;
        MarkedOneMore(was, prior, endpoints, infos, upstreamEndpoints[..i], e);
      }
    }

    /** Flags the first endpoint to mark; if the flag was clear, makes its channel and fills it when
        no request is in flight. */
    method MarkOneEndpoint(ghost start: State, ghost before: seq<Action>, e: nat)
      returns (swapped: bool, ghost run: seq<Action>)
      requires Leads(sandboxParallelism, start, before, View()) && e in endpoints
      requires holder.Draining? && holder.drain.todo != [] && holder.drain.todo[0] == e
      modifies this`endpoints, this`holder
      ensures Leads(sandboxParallelism, start, run, View())
      ensures endpoints == old(endpoints)[e := MarkEnd(old(endpoints)[e])] && swapped == !old(endpoints)[e].drained
      ensures holder == Holder.Draining(AfterMark(old(holder.drain), swapped, e))
    {
      var x := endpoints[e];
      swapped := !x.drained;
      Append(sandboxParallelism, start, before, View(), Mark);
      run := before + [Mark];
      ghost var d := holder.drain.(todo := holder.drain.todo[1..]);
      endpoints := endpoints[e := x.(drained := true)];
      if swapped {
        holder := Marked(e, d);
        run := OpenChannel(start, run, e);
      } else {
        holder := Holder.Draining(d);
      }
    }

    method OpenChannel(ghost start: State, ghost before: seq<Action>, e: nat) returns (ghost run: seq<Action>)
      requires Leads(sandboxParallelism, start, before, View()) && e in endpoints
      requires holder.Marked? && holder.end == e
      modifies this`endpoints, this`holder
      ensures Leads(sandboxParallelism, start, run, View())
      ensures endpoints == old(endpoints)[e := old(endpoints)[e].(callback := Some(old(endpoints)[e].inFlight == 0))]
      ensures holder == Holder.Draining(old(holder.drain).(barriers := old(holder.drain).barriers + [e]))
    {
      ghost var d := holder.drain.(barriers := holder.drain.barriers + [e]);
      Append(sandboxParallelism, start, before, View(), Open);
      run := before + [Open];
      endpoints := endpoints[e := endpoints[e].(callback := Some(false))];
      holder := Opened(e, d);
      Append(sandboxParallelism, start, run, View(), Probe);
      run := run + [Probe];
      if endpoints[e].inFlight == 0 {
        holder := Filling(e, d);
        Append(sandboxParallelism, start, run, View(), Fill);
        run := run + [Fill];
        endpoints := endpoints[e := endpoints[e].(callback := Some(true))];
      }
      holder := Holder.Draining(d);
    }

    // --- The goroutine of one request, with no other goroutine interfering ---------------------------

    /** Counts the request and queues it if no endpoint is active. */
    method TryWarmStart(r: nat) returns (cold: bool, ghost run: seq<Action>)
      requires holder == Free && r !in requests
      modifies this`inflightRequests, this`queue, this`channels, this`queueDepth, this`requests
      ensures Leads(sandboxParallelism, old(View()), run, View())
      ensures cold == (activeEndpointCount == 0)
      ensures requests == old(requests)[r := ARRIVED.(at := if cold then Waiting else Admitted)]
      ensures inflightRequests == old(inflightRequests) + 1
      ensures queue == (if cold then old(queue) + [r] else old(queue))
      ensures channels == (if cold then old(channels)[r := Chan([], false, false, 0)] else old(channels))
      ensures queueDepth == old(queueDepth) + One(cold)
    {
      run := WarmStartRun(sandboxParallelism, View(), r);
      inflightRequests := inflightRequests + 1;
      cold := activeEndpointCount == 0;
      if cold {
        channels := channels[r := Chan([], false, false, 0)];
        queue := queue + [r];
        queueDepth := queueDepth + 1;
      }
      requests := requests[r := ARRIVED.(at := if cold then Waiting else Admitted)];
    }

    /** Tries up to 60 times to get a token. The policy's choice and whether the token comes before the
        timer are given per attempt. */
    method DoLoadBalancing(r: nat, picks: seq<nat>, granted: seq<bool>)
      returns (end: Option<nat>, ghost run: seq<Action>)
      requires holder == Free && AllKnown(endpoints, upstreamEndpoints)
      requires upstreamEndpoints == [] || PicksOk(upstreamEndpoints, picks, granted)
      requires r in requests && requests[r].at == Admitted
      modifies this`endpoints, this`queueDepth, this`requests
      ensures Leads(sandboxParallelism, old(View()), run, View()) && queueDepth == old(queueDepth) && r in requests
      ensures end.None? <==> upstreamEndpoints == [] || NeverGrants(old(endpoints), picks, granted, LB_RETRIES)
      ensures end.None? ==> endpoints == old(endpoints) && requests[r].at == Leaving
      ensures end.Some? ==> end.value in upstreamEndpoints && requests[r].at == Running && requests[r].end == end.value
      ensures end.Some? ==> endpoints == old(endpoints)[end.value := Used(old(endpoints)[end.value])]
      ensures end.Some? ==> FirstGrant(old(endpoints), picks, granted, end.value)
    {
      ghost var start := View();
      run := EnterBalancer(r);
      end := None;
      if |upstreamEndpoints| == 0 {
        run := GiveUp(start, run, r, PickNil);
      } else {
        end, run := Attempts(start, run, r, picks, granted);
        if end.None? {
          run := GiveUp(start, run, r, Exhaust);
        }
      }
    }

    method EnterBalancer(r: nat) returns (ghost run: seq<Action>)
      requires r in requests && requests[r].at == Admitted
      modifies this`queueDepth, this`requests
      ensures Leads(sandboxParallelism, old(View()), run, View()) && queueDepth == old(queueDepth) + 1
      ensures requests == old(requests)[r := old(requests)[r].(at := Balancing, tries := LB_RETRIES)]
    {
      AloofRun(sandboxParallelism, View(), [], View(), r, Enter);
      run := [] + [Go(r, Enter)];
      queueDepth := queueDepth + 1;
      requests := requests[r := requests[r].(at := Balancing, tries := LB_RETRIES)];
    }

    /** Leaves the load balancer without an endpoint. */
    method GiveUp(ghost start: State, ghost before: seq<Action>, r: nat, ghost m: Move) returns (ghost run: seq<Action>)
      requires Leads(sandboxParallelism, start, before, View())
      requires (m == PickNil || m == Exhaust) && CanGo(View(), r, m)
      modifies this`queueDepth, this`requests
      ensures Leads(sandboxParallelism, start, run, View()) && queueDepth == old(queueDepth) - 1
      ensures requests == old(requests)[r := old(requests)[r].(at := Leaving)]
    {
      AloofRun(sandboxParallelism, start, before, View(), r, m);
      run := before + [Go(r, m)];
      queueDepth := queueDepth - 1;
      requests := requests[r := requests[r].(at := Leaving)];
    }

    method Attempts(ghost start: State, ghost before: seq<Action>, r: nat, picks: seq<nat>, granted: seq<bool>)
      returns (end: Option<nat>, ghost run: seq<Action>)
      requires Leads(sandboxParallelism, start, before, View()) && holder == Free
      requires AllKnown(endpoints, upstreamEndpoints) && PicksOk(upstreamEndpoints, picks, granted)
      requires r in requests && requests[r].at == Balancing && requests[r].tries == LB_RETRIES
      modifies this`endpoints, this`queueDepth, this`requests
      ensures Leads(sandboxParallelism, start, run, View()) && r in requests
      ensures end.None? <==> NeverGrants(old(endpoints), picks, granted, LB_RETRIES)
      ensures end.None? ==> endpoints == old(endpoints) && queueDepth == old(queueDepth)
      ensures end.None? ==> requests[r].at == Balancing && requests[r].tries == 0
      ensures end.Some? ==> end.value in upstreamEndpoints && requests[r].at == Running && requests[r].end == end.value
      ensures end.Some? ==> endpoints == old(endpoints)[end.value := Used(old(endpoints)[end.value])]
      ensures end.Some? ==> FirstGrant(old(endpoints), picks, granted, end.value)
      ensures end.Some? ==> queueDepth == old(queueDepth) - 1
    {
      end, run := None, before;
      var i := 0;
      while i < LB_RETRIES
        invariant i <= LB_RETRIES && Leads(sandboxParallelism, start, run, View())
        invariant endpoints == old(endpoints) && queueDepth == old(queueDepth) && end.None?
        invariant r in requests && requests[r].at == Balancing && requests[r].tries == LB_RETRIES - i
        invariant NeverGrants(endpoints, picks, granted, i)
      {
        var e := picks[i];
        if granted[i] && endpoints[e].tokens > 0 {
          run := Take(start, run, r, e);
          assert Grants(old(endpoints), picks, granted, i);
          return Some(e), run;
        }
        run := Retry(start, run, r, e);
        i := i + 1;
      }
    }

    /** The token came: the request is counted on the endpoint and leaves the load balancer. */
    method Take(ghost start: State, ghost before: seq<Action>, r: nat, e: nat) returns (ghost run: seq<Action>)
      requires Leads(sandboxParallelism, start, before, View()) && holder == Free
      requires r in requests && requests[r].at == Balancing && requests[r].tries > 0
      requires e in upstreamEndpoints && e in endpoints && endpoints[e].tokens > 0
      modifies this`endpoints, this`queueDepth, this`requests
      ensures Leads(sandboxParallelism, start, run, View()) && queueDepth == old(queueDepth) - 1
      ensures endpoints == old(endpoints)[e := Used(old(endpoints)[e])]
      ensures requests == old(requests)[r := old(requests)[r].(at := Running, end := e)]
    {
      GrantRun(sandboxParallelism, start, before, View(), r, requests[r], e);
      run := before + [Go(r, Pick(e))] + [Go(r, TakeToken)] + [Go(r, Count)] + [Go(r, Leave)];
      endpoints := endpoints[e := Used(endpoints[e])];
      queueDepth := queueDepth - 1;
      requests := requests[r := requests[r].(at := Running, end := e)];
    }

    /** The timer came first. */
    ghost method Retry(start: State, before: seq<Action>, r: nat, e: nat) returns (run: seq<Action>)
      requires Leads(sandboxParallelism, start, before, View()) && holder == Free
      requires r in requests && requests[r].at == Balancing && requests[r].tries > 0 && e in upstreamEndpoints
      modifies this`requests
      ensures Leads(sandboxParallelism, start, run, View())
      ensures requests == old(requests)[r := old(requests)[r].(end := e, tries := old(requests)[r].tries - 1)]
    {
      AttemptRun(sandboxParallelism, start, before, View(), r, requests[r], e);
      run := before + [Go(r, Pick(e))] + [Go(r, TimeOut)];
      requests := requests[r := requests[r].(end := e, tries := requests[r].tries - 1)];
    }

    /** Gives back what the request used, unless its signal to a drain blocks. */
    method GiveBackCapacity(r: nat, e: nat) returns (blocked: bool, ghost run: seq<Action>)
      requires r in requests && requests[r].at == Running && requests[r].end == e && e in endpoints
      modifies this`endpoints, this`requests
      ensures Leads(sandboxParallelism, old(View()), run, View())
      ensures endpoints == old(endpoints)[e := Returned(old(endpoints)[e])]
      ensures blocked == Blocks(old(endpoints)[e])
      ensures var x := old(endpoints)[e];
        && (blocked <==> x.drained && x.inFlight == 1 && x.callback != Some(false))
        && endpoints[e].inFlight == x.inFlight - 1 && endpoints[e].drained == x.drained
        && endpoints[e].tokens == x.tokens + One(!blocked)
        && (!(x.drained && x.inFlight == 1) ==> endpoints[e].callback == x.callback)
        && (x.drained && x.inFlight == 1 && x.callback.Some? ==> endpoints[e].callback == Some(true))
      ensures r in requests && requests[r].at == ReturnedAt(old(endpoints)[e])
    {
      ghost var p := requests[r];
      ghost var x := endpoints[e];
      ghost var start := View();
      MovedSame(start, r, p, e);
      assert requests[r := p] == requests;
      assert Leads(sandboxParallelism, start, [], start);
      run := ReturnRun(sandboxParallelism, start, [], start, r, p, x);
      var inflight := endpoints[e].inFlight - 1;
      endpoints := endpoints[e := endpoints[e].(inFlight := inflight)];
      blocked := false;
      if endpoints[e].drained && inflight == 0 {
        blocked := endpoints[e].callback.None? || endpoints[e].callback.value;
        if !blocked {
          endpoints := endpoints[e := endpoints[e].(callback := Some(true))];
        }
      }
      if !blocked {
        endpoints := endpoints[e := endpoints[e].(tokens := endpoints[e].tokens + 1)];
      }
      requests := requests[r := p.(at := ReturnedAt(x), last := x.inFlight == 1)];
      assert endpoints == old(endpoints)[e := Returned(x)];
    }
  }
}
