/** The announcements of one node and the control plane that follows them
    (cmd/master_node/state_management/election_management.go). */
module Leadership {
  import opened Options
  import opened Consensus
  import opened Cluster

  predicate NoRepeatedLead(stream: seq<Announcement>) {
    forall i :: 0 < i < |stream| ==> !(stream[i - 1].isLeader && stream[i].isLeader)
  }

  predicate EndsLeading(stream: seq<Announcement>) {
    stream != [] && stream[|stream| - 1].isLeader
  }

  /** What every critical section keeps, stale replies included. */
  predicate Announces(n: Node) {
    && NoRepeatedLead(n.announced)
    && (n.role.Leader? ==> EndsLeading(n.announced))
    && (EndsLeading(n.announced) ==> n.role.Leader? || n.role.Dead?)
  }

  lemma AnnouncesStep(s: State, a: Action)
    requires WellFormed(s) && Enabled(s, a)
    requires forall i :: i in s.nodes ==> Announces(s.nodes[i])
    ensures forall i :: i in Apply(s, a).nodes ==> Announces(Apply(s, a).nodes[i])
  {
    match a
    case TimeOut(i) => assert Announces(s.nodes[i]);
    case DeliverVote(k, p) => AnnouncesVoter(s.nodes[p], s.rounds[k].term, s.rounds[k].candidate);
    case ReadVote(k, p) =>
      var r := s.rounds[k];
      AnnouncesCandidate(s.nodes[r.candidate], r.term, r.votes, |s.nodes|, r.calls[p].reply);
    case SendBeat(i, p) =>
    case DeliverBeat(b) => AnnouncesFollower(s.nodes[s.beats[b].to], s.beats[b].term, s.beats[b].leader);
    case ReadBeat(b) => assert Announces(s.nodes[s.beats[b].leader]);
    case Halt(i) => assert Announces(s.nodes[i]);
  }

  lemma AnnouncesVoter(n: Node, term: int, candidate: int)
    requires Announces(n)
    ensures Announces(OnRequestVote(n, term, candidate).0)
  {
  }

  lemma AnnouncesFollower(n: Node, term: int, leader: int)
    requires Announces(n)
    ensures Announces(OnAppendEntries(n, term, leader).0)
  {
  }

  lemma AnnouncesCandidate(n: Node, saved: int, votes: int, size: int, reply: VoteReply)
    requires Announces(n)
    ensures Announces(OnVoteReply(n, saved, votes, size, reply).0)
  {
  }

  lemma {:induction false} AnnouncesRun(rule: Rule, s: State, run: seq<Action>)
    requires WellFormed(s) && Legal(rule, s, run)
    requires forall i :: i in s.nodes ==> Announces(s.nodes[i])
    ensures var s' := Exec(rule, s, run);
      s'.nodes.Keys == s.nodes.Keys && forall i :: i in s'.nodes ==> Announces(s'.nodes[i])
    decreases |run|
  {
    if run != [] {
      ApplyWellFormed(s, run[0]);
      AnnouncesStep(s, run[0]);
      AnnouncesRun(rule, Apply(s, run[0]), run[1..]);
    }
  }

  // --- The consumer ------------------------------------------------------------------------

  /** `stop` is the stop channel of the node-monitoring loop the state refers to, `live` the loops
      still running, `started` how many were ever started, `jammed` the loops that will never come
      back to their stop channel. `starting` is the time between taking an announcement of leadership
      and asking the election server whether the node still leads, `led` its last answer, and `read`
      counts the announcements taken. */
  datatype Manager = Manager(
    wasLeader: bool, stop: Option<nat>, live: set<nat>, started: nat, jammed: set<nat>, starting: bool, led: bool,
    read: nat)

  const FRESH_MANAGER := Manager(false, None, {}, 0, {}, false, false, 0)

  /** The stop is a send on an unbuffered channel, which only the loop receives from. */
  predicate StopBlocks(m: Manager) {
    m.stop.Some? && m.stop.value in m.jammed
  }

  function DestroyState(m: Manager): Manager {
    m.(live := if m.stop.Some? then m.live - {m.stop.value} else m.live)
  }

  /** Whether the manager is to become leader; leadership announced to a manager that leads demotes it. */
  predicate Promotes(m: Manager, a: Announcement) {
    a.isLeader && !m.wasLeader
  }

  /** Whether an announcement is got through with: the old loop is stopped by all but a follower that is
      told to follow. */
  predicate Takes(m: Manager, a: Announcement) {
    Promotes(m, a) || m.wasLeader ==> !StopBlocks(m)
  }

  /** Up to the question to the election server. */
  function Take(m: Manager, a: Announcement): Manager {
    var next := m.(read := m.read + 1);
    if Promotes(m, a) then DestroyState(next).(starting := true)
    else if m.wasLeader then DestroyState(next).(stop := None, wasLeader := false)
    else next
  }

  /** A loop is started only if the node leads at that moment; the manager goes on as leader anyway. */
  function StartLoop(m: Manager, leads: bool): Manager {
    var next := m.(wasLeader := true, starting := false, led := leads);
    if leads then next.(stop := Some(m.started), live := m.live + {m.started}, started := m.started + 1)
    else next.(stop := None)
  }

  function Update(m: Manager, a: Announcement, leads: bool): Manager {
    if Promotes(m, a) then StartLoop(Take(m, a), leads) else Take(m, a)
  }

  /** An announcement, and whether the node leads by the time it is processed. */
  datatype Input = Input(said: Announcement, leads: bool)

  function Process(m: Manager, stream: seq<Input>): Manager
    decreases |stream|
  {
    if stream == [] then m
    else
      var last := stream[|stream| - 1];
      Update(Process(m, stream[..|stream| - 1]), last.said, last.leads)
  }

  class CurrentState {
    var stopNodeMonitoring: Option<nat>
    var wasLeaderBefore: bool
    var liveLoops: set<nat>
    var startedLoops: nat
    var jammed: set<nat>
    ghost var led: bool
    ghost var read: nat

    ghost function View(): Manager
      reads this
    {
      Manager(wasLeaderBefore, stopNodeMonitoring, liveLoops, startedLoops, jammed, false, led, read)
    }

    constructor ()
      ensures View() == FRESH_MANAGER
    {
      stopNodeMonitoring, wasLeaderBefore, liveLoops, startedLoops := None, false, {}, 0;
      jammed, led, read := {}, false, 0;
    }

    /** Blocks for good if the loop, where there is one, no longer listens. */
    method DestroyStateFromPreviousElectionTerm() returns (blocked: bool)
      modifies this`liveLoops
      ensures blocked == StopBlocks(old(View()))
      ensures View() == if blocked then old(View()) else DestroyState(old(View()))
    {
      blocked := false;
      if stopNodeMonitoring.Some? {
        if stopNodeMonitoring.value in jammed {
          return true;
        }
        liveLoops := liveLoops - {stopNodeMonitoring.value};
      }
    }

    method StartNodeMonitoringLoop(isLeader: bool) returns (stop: Option<nat>)
      modifies this`liveLoops, this`startedLoops
      ensures stop == if isLeader then Some(old(startedLoops)) else None
      ensures liveLoops == if isLeader then old(liveLoops) + {old(startedLoops)} else old(liveLoops)
      ensures startedLoops == if isLeader then old(startedLoops) + 1 else old(startedLoops)
    {
      if !isLeader {
        return None;
      }
      stop := Some(startedLoops);
      liveLoops := liveLoops + {startedLoops};
      startedLoops := startedLoops + 1;
    }

    method SetCurrentControlPlaneLeader(isLeader: bool) returns (blocked: bool)
      modifies this
      ensures blocked == StopBlocks(old(View())) && jammed == old(jammed)
      ensures View() == if blocked then old(View()) else StartLoop(DestroyState(old(View())), isLeader)
    {
      blocked := DestroyStateFromPreviousElectionTerm();
      if blocked {
        return;
      }
      stopNodeMonitoring := StartNodeMonitoringLoop(isLeader);
      wasLeaderBefore := true;
      led := isLeader;
    }

    method UpdateLeadership(leadership: Announcement, isLeader: bool) returns (blocked: bool)
      modifies this
      ensures blocked == !Takes(old(View()), leadership) && jammed == old(jammed)
      ensures View() == if blocked then old(View()) else Update(old(View()), leadership, isLeader)
    {
      blocked := false;
      if leadership.isLeader && !wasLeaderBefore {
        blocked := SetCurrentControlPlaneLeader(isLeader);
      } else {
        if wasLeaderBefore {
          blocked := DestroyStateFromPreviousElectionTerm();
          if blocked {
            return;
          }
          stopNodeMonitoring := None;
        }
        wasLeaderBefore := false;
      }
      read := if blocked then read else read + 1;
    }

    /** The main loop: announcements are taken from the channel in order, until one blocks. */
    method ConsumeAll(stream: seq<Input>) returns (taken: nat)
      modifies this
      ensures taken <= |stream| && View() == Process(old(View()), stream[..taken])
      ensures taken == |stream| || !Takes(View(), stream[taken].said)
      ensures old(jammed) == {} ==> taken == |stream|
    {
      for k := 0 to |stream|
        invariant View() == Process(old(View()), stream[..k]) && jammed == old(jammed)
      {
        var blocked := UpdateLeadership(stream[k].said, stream[k].leads);
        if blocked {
          return k;
        }
        assert stream[..k + 1][..k] == stream[..k];
      }
      taken := |stream|;
    }
  }

  predicate Tracks(m: Manager, stream: seq<Input>) {
    stream != [] ==> (m.wasLeader <==> stream[|stream| - 1].said.isLeader)
  }

  /** The loop that is live, if any, is the one the stop channel belongs to. */
  predicate OneLoop(m: Manager) {
    m.live == (if m.stop.Some? then {m.stop.value} else {}) && (m.stop.Some? ==> m.stop.value < m.started)
  }

  /** Whatever the manager is told, at most one loop is live, and one is live exactly while the manager
      leads and the node led when the manager took the lead. */
  lemma {:induction false} AtMostOneLoop(stream: seq<Input>)
    ensures var m := Process(FRESH_MANAGER, stream);
      && OneLoop(m) && |m.live| <= 1 && !m.starting
      && (m.live != {} <==> m.wasLeader && stream[|stream| - 1].leads)
    decreases |stream|
  {
    if stream != [] {
      AtMostOneLoop(stream[..|stream| - 1]);
    }
  }

  function Said(stream: seq<Input>): seq<Announcement> {
    seq(|stream|, i requires 0 <= i < |stream| => stream[i].said)
  }

  predicate TracksAt(stream: seq<Input>, k: nat)
    requires k <= |stream|
  {
    Tracks(Process(FRESH_MANAGER, stream[..k]), stream[..k])
  }

  predicate AlwaysTracks(stream: seq<Input>) {
    forall k :: 0 <= k <= |stream| ==> TracksAt(stream, k)
  }

  lemma TracksOneMore(stream: seq<Input>)
    requires stream != []
    ensures AlwaysTracks(stream) <==>
      AlwaysTracks(stream[..|stream| - 1]) && Tracks(Process(FRESH_MANAGER, stream), stream)
  {
    var n := |stream| - 1;
    var init := stream[..n];
    forall k | 0 <= k <= n ensures TracksAt(init, k) <==> TracksAt(stream, k) {
      assert init[..k] == stream[..k];
    }
    assert stream[..n + 1] == stream;
    assert TracksAt(stream, n + 1) <==> Tracks(Process(FRESH_MANAGER, stream), stream);
  }

  /** The manager follows every announcement of a stream exactly when leadership is never announced
      twice in a row, whether or not the node still leads by then. */
  lemma {:induction false} TracksIffNoRepeat(stream: seq<Input>)
    ensures AlwaysTracks(stream) <==> NoRepeatedLead(Said(stream))
    decreases |stream|
  {
    if stream == [] {
      assert stream[..0] == [];
    } else {
      var n := |stream| - 1;
      TracksIffNoRepeat(stream[..n]);
      TracksOneMore(stream);
      assert Said(stream)[..n] == Said(stream[..n]);
      LastRepeats(Said(stream));
      if AlwaysTracks(stream[..n]) {
        assert TracksAt(stream[..n], n) && stream[..n][..n] == stream[..n];
        FollowsLast(stream);
      }
    }
  }

  lemma LastRepeats(said: seq<Announcement>)
    requires said != []
    ensures var n := |said| - 1;
      NoRepeatedLead(said) <==> NoRepeatedLead(said[..n]) && !(n > 0 && said[n - 1].isLeader && said[n].isLeader)
  {
    var n := |said| - 1;
    assert forall i :: 0 <= i < n ==> said[..n][i] == said[i];
  }

  lemma FollowsLast(stream: seq<Input>)
    requires stream != []
    requires var n := |stream| - 1; Tracks(Process(FRESH_MANAGER, stream[..n]), stream[..n])
    ensures var n := |stream| - 1;
      Tracks(Process(FRESH_MANAGER, stream), stream) <==>
        !(n > 0 && stream[n - 1].said.isLeader && stream[n].said.isLeader)
  {
  }
}
