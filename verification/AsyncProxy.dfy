/** The asynchronous proxy as the source runs it: one process whose handlers update its maps in
    place. Each method is one uninterrupted path through the machine of AsyncPipeline. */
module AsyncProxy {
  import opened AsyncPipeline

  /** The steps of one goroutine of the handler loop, from taking an entry to finishing with it. */
  function Handling(allowed: int, e: Entry, k: nat, r: Response, written: bool): seq<Action> {
    if e.tries >= allowed then [GiveUp(k)]
    else if Final(r) then [Fire(k, r), Store(k), Save(k, written), Delete(k)]
    else [Fire(k, r)]
  }

  lemma Two(allowed: int, s: State, a: Action, rest: seq<Action>)
    requires Enabled(allowed, s, a) && Legal(allowed, Apply(allowed, s, a), rest)
    ensures Legal(allowed, s, [a] + rest) && Exec(allowed, s, [a] + rest) == Exec(allowed, Apply(allowed, s, a), rest)
  {
  }

  /** The run is legal, leads from one state to the other and takes only recovery steps. */
  ghost predicate Recovers(allowed: int, s: State, run: seq<Action>, t: State) {
    && Legal(allowed, s, run) && Exec(allowed, s, run) == t
    && forall i :: 0 <= i < |run| ==> Recovering(run[i])
  }

  /** The same with replays only. */
  ghost predicate Replays(allowed: int, s: State, run: seq<Action>, t: State) {
    && Legal(allowed, s, run) && Exec(allowed, s, run) == t
    && forall i :: 0 <= i < |run| ==> run[i].Replay?
  }

  lemma RecoverMore(allowed: int, s: State, run: seq<Action>, t: State, a: Action)
    requires Recovers(allowed, s, run, t) && Enabled(allowed, t, a) && Recovering(a)
    ensures Recovers(allowed, s, run + [a], Apply(allowed, t, a))
  {
    Append(allowed, s, run, a);
  }

  lemma RecoversAll(allowed: int, s: State, run: seq<Action>, t: State)
    requires Recovers(allowed, s, run, t)
    ensures Restored(s, s) ==> Restored(s, t)
  {
    if Restored(s, s) {
      RestoredRun(allowed, s, s, run);
    }
  }

  lemma LoadAndScan(allowed: int, s: State)
    requires s.boot == Booting
    ensures var t := Apply(allowed, s, Load);
      Enabled(allowed, t, Scan) && Recovers(allowed, s, [Load, Scan], Apply(allowed, t, Scan))
  {
  }

  /** A successful answer written to memory, then to Redis, before the request is deleted. */
  lemma Answered(allowed: int, s: State, k: nat, r: Response, written: bool)
    requires k in s.entries && s.entries[k].phase == Taken && s.entries[k].tries < allowed && Final(r)
    requires !ReplayLocked(s)
    ensures var e := s.entries[k];
      var run := [Fire(k, r), Store(k), Save(k, written), Delete(k)];
      && Legal(allowed, s, run)
      && Exec(allowed, s, run) == s.(
           requests := s.requests - {e.code},
           answers := if written then s.answers[e.code := r] else s.answers,
           memory := s.memory[e.code := r],
           entries := s.entries[k := e.(phase := Finished, fires := e.fires + 1, writes := e.writes + 1)],
           unsaved := if written then s.unsaved else s.unsaved + {e.code})
  {
    var s1 := Apply(allowed, s, Fire(k, r));
    var s2 := Apply(allowed, s1, Store(k));
    var s3 := Apply(allowed, s2, Save(k, written));
    var s4 := Apply(allowed, s3, Delete(k));
    Two(allowed, s3, Delete(k), []);
    Two(allowed, s2, Save(k, written), [Delete(k)]);
    Two(allowed, s1, Store(k), [Save(k, written), Delete(k)]);
    Two(allowed, s, Fire(k, r), [Store(k), Save(k, written), Delete(k)]);
    var e := s.entries[k];
    assert s4.entries == s.entries[k := e.(phase := Finished, fires := e.fires + 1, writes := e.writes + 1)];
  }

  lemma GaveUp(allowed: int, s: State, k: nat)
    requires k in s.entries && s.entries[k].phase == Taken && s.entries[k].tries >= allowed && !ReplayLocked(s)
    ensures var e := s.entries[k];
      && Legal(allowed, s, [GiveUp(k)])
      && Exec(allowed, s, [GiveUp(k)]) == s.(
           memory := s.memory[e.code := GAVE_UP],
           entries := s.entries[k := e.(phase := Finished, writes := e.writes + 1)])
  {
    Two(allowed, s, GiveUp(k), []);
  }

  lemma FiredInVain(allowed: int, s: State, k: nat, r: Response)
    requires k in s.entries && s.entries[k].phase == Taken && s.entries[k].tries < allowed && !Final(r)
    ensures var e := s.entries[k];
      && Legal(allowed, s, [Fire(k, r)])
      && Exec(allowed, s, [Fire(k, r)]) == s.(
           entries := s.entries[k := e.(phase := Sending, tries := e.tries + 1, fires := e.fires + 1)])
  {
    Two(allowed, s, Fire(k, r), []);
  }

  /** What one pass of the handler leaves: the response for giving up once the tries are used up; a response
      of status 200 or 400 in memory and, if the store takes it, stored, with the request deleted; or the
      entry back in the channel with one more try and nothing else changed. */
  predicate Handled(allowed: int, was: State, now: State, k: nat, r: Response, written: bool)
    requires k in was.entries
  {
    var e := was.entries[k];
    && k in now.entries
    && if e.tries >= allowed then
         && now.memory == was.memory[e.code := Response(500, ZERO_TIME)] && now.entries[k].phase == Finished
         && now.requests == was.requests && now.answers == was.answers
       else if r.status == 200 || r.status == 400 then
         && now.memory == was.memory[e.code := r] && now.entries[k].phase == Finished
         && now.requests == was.requests - {e.code}
         && now.answers == if written then was.answers[e.code := r] else was.answers
       else
         && now.entries[k] == e.(phase := Sending, tries := e.tries + 1, fires := e.fires + 1)
         && now.memory == was.memory && now.requests == was.requests && now.answers == was.answers
  }

  class AsyncProxyingService {
    const allowedRetries: int
    var requests: map<Code, int>
    var answers: map<Code, Response>
    var responses: map<Code, Response>
    var entries: map<nat, Entry>
    var next: nat
    var boot: Boot
    ghost var issued: set<Code>
    ghost var acked: set<Code>
    ghost var collected: set<Code>
    ghost var unsaved: set<Code>

    ghost function View(): State
      reads this
    {
      State(requests, answers, responses, entries, next, boot, issued, acked, collected, unsaved)
    }

    constructor (allowedRetries: int)
      ensures this.allowedRetries == allowedRetries && View() == EMPTY
    {
      this.allowedRetries := allowedRetries;
      requests, answers, responses, entries, next, boot := map[], map[], map[], map[], 0, Booting;
      issued, acked, collected, unsaved := {}, {}, {}, {};
    }

    /** The invocation handler up to its send on the request channel. */
    method AcceptInvocation(code: Code)
      requires code !in issued
      modifies this
      ensures View() == Apply(allowedRetries, old(View()), Accept(code))
      ensures requests == old(requests)[code := 0] && answers == old(answers) && responses == old(responses)
      ensures entries == old(entries)[old(next) := Entry(code, 0, true, Sending, 0, 0)]
    {
      requests := requests[code := 0];
      issued := issued + {code};
      entries := entries[next := Entry(code, 0, true, Sending, 0, 0)];
      next := next + 1;
    }

    /** The goroutine of the handler loop, given what firing would return and whether Redis takes
        the answer. If it has to write the responses during recovery, the replay ends first. */
    method HandleRequest(k: nat, response: Response, written: bool) returns (ghost wait: seq<Action>)
      requires k in entries && k < next && entries[k].phase == Taken
      modifies this
      ensures Legal(allowedRetries, old(View()), wait) && (forall i :: 0 <= i < |wait| ==> wait[i].Replay?)
      ensures !old(ReplayLocked(View())) ==> wait == []
      ensures old(entries)[k].tries < allowedRetries && !Final(response) ==> wait == []
      ensures Handled(allowedRetries, old(View()), View(), k, response, written)
      ensures var run := Handling(allowedRetries, old(entries)[k], k, response, written);
        var start := Exec(allowedRetries, old(View()), wait);
        Legal(allowedRetries, start, run) && View() == Exec(allowedRetries, start, run)
    {
      wait := [];
      if entries[k].tries >= allowedRetries || Final(response) {
        wait := AwaitReplay(k);
      }
      HandleNow(k, response, written);
    }

    method AwaitReplay(k: nat) returns (ghost wait: seq<Action>)
      requires k in entries && k < next
      modifies this
      ensures Legal(allowedRetries, old(View()), wait) && Exec(allowedRetries, old(View()), wait) == View()
      ensures forall i :: 0 <= i < |wait| ==> wait[i].Replay?
      ensures !old(ReplayLocked(View())) ==> wait == []
      ensures !ReplayLocked(View()) && k in entries && k < next && entries[k] == old(entries)[k]
      ensures responses == old(responses) && requests == old(requests) && answers == old(answers)
    {
      ghost var start := View();
      wait := [];
      while boot.Replaying? && boot.left != {}
        invariant Replays(allowedRetries, start, wait, View())
        invariant !ReplayLocked(start) ==> wait == [] && View() == start
        invariant k in entries && k < next && entries[k] == start.entries[k]
        invariant responses == start.memory && requests == start.requests && answers == start.answers
        decreases if boot.Replaying? then boot.left else {}
      {
        ghost var c := ResendNext();
        Append(allowedRetries, start, wait, Replay(c));
        wait := wait + [Replay(c)];
      }
    }

    /** One uninterrupted pass. */
    method HandleNow(k: nat, response: Response, written: bool)
      requires k in entries && entries[k].phase == Taken
      requires entries[k].tries >= allowedRetries || Final(response) ==> !ReplayLocked(View())
      modifies this
      ensures var run := Handling(allowedRetries, old(entries)[k], k, response, written);
        Legal(allowedRetries, old(View()), run) && View() == Exec(allowedRetries, old(View()), run)
      ensures Handled(allowedRetries, old(View()), View(), k, response, written)
    {
      ghost var before := View();
      var e := entries[k];
      if e.tries >= allowedRetries {
        responses := responses[e.code := GAVE_UP];
        entries := entries[k := e.(phase := Finished, writes := e.writes + 1)];
        GaveUp(allowedRetries, before, k);
      } else if Final(response) {
        responses := responses[e.code := response];
        if written {
          answers := answers[e.code := response];
        } else {
          unsaved := unsaved + {e.code};
        }
        requests := requests - {e.code};
        entries := entries[k := e.(phase := Finished, fires := e.fires + 1, writes := e.writes + 1)];
        Answered(allowedRetries, before, k, response, written);
      } else {
        entries := entries[k := e.(phase := Sending, tries := e.tries + 1, fires := e.fires + 1)];
        FiredInVain(allowedRetries, before, k, response);
      }
    }

    method LoadResponses()
      requires boot == Booting
      modifies this
      ensures View() == Apply(allowedRetries, old(View()), Load)
      ensures forall c :: c in responses <==> c in old(responses) || c in answers
      ensures forall c :: c in responses ==> responses[c] == if c in answers then answers[c] else old(responses)[c]
    {
      responses := responses + answers;
      boot := Loaded;
    }

    method ScanRequests()
      requires boot == Loaded
      modifies this
      ensures View() == Apply(allowedRetries, old(View()), Scan)
    {
      boot := Replaying(requests.Keys);
    }

    method Resend(c: Code)
      requires boot.Replaying? && c in boot.left
      modifies this
      ensures View() == Apply(allowedRetries, old(View()), Replay(c))
      ensures c in responses ==> entries == old(entries)
      ensures c !in responses && c in requests ==>
        entries == old(entries)[old(next) := Entry(c, requests[c], false, Sending, 0, 0)]
    {
      boot := Replaying(boot.left - {c});
      if c !in responses {
        entries := entries[next := Entry(c, if c in requests then requests[c] else 0, false, Sending, 0, 0)];
        next := next + 1;
      }
    }

    /** The recovery part of starting the server: load the answers, then send every stored request
        that has none. The scan returns its keys in an arbitrary order. */
    method Recover() returns (ghost run: seq<Action>)
      requires boot == Booting
      modifies this
      ensures Recovers(allowedRetries, old(View()), run, View())
      ensures boot == Replaying({})
      ensures forall c :: c in old(answers) ==> c in responses && responses[c] == old(answers)[c]
      ensures old(Restored(View(), View())) ==> Restored(old(View()), View())
    {
      ghost var before := View();
      LoadResponses();
      ghost var loaded := responses;
      ScanRequests();
      LoadAndScan(allowedRetries, before);
      run := [Load, Scan];
      while boot.left != {}
        invariant boot.Replaying?
        invariant Recovers(allowedRetries, before, run, View())
        invariant responses == loaded
        decreases boot.left
      {
        ghost var turn := View();
        ghost var c := ResendNext();
        RecoverMore(allowedRetries, before, run, turn, Replay(c));
        run := run + [Replay(c)];
      }
      RecoversAll(allowedRetries, before, run, View());
    }

    /** Sends the request that comes next in the scan, if it has no answer. */
    method ResendNext() returns (c: Code)
      requires boot.Replaying? && boot.left != {}
      modifies this
      ensures c in old(boot.left) && View() == Apply(allowedRetries, old(View()), Replay(c))
      ensures responses == old(responses)
    {
      c :| c in boot.left;
      Resend(c);
    }
  }
}
