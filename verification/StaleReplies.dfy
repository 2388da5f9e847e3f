/** The source acts on every reply, however old. That breaks Election Safety, and the rule "act on
    no harmful reply" is exactly what it takes to keep it: for every harmful combination of terms
    there is a three-node run that elects two leaders in one term. */
module StaleReplies {
  import opened Options
  import opened Consensus
  import opened Cluster
  import opened ElectionSafety

  const THREE: set<int> := {0, 1, 2}

  ghost predicate Reach(rule: Rule, s: State) {
    exists run :: Legal(rule, Initial(THREE), run) && Exec(rule, Initial(THREE), run) == s
  }

  lemma Start(rule: Rule)
    ensures Reach(rule, Initial(THREE)) && WellFormed(Initial(THREE)) && Initial(THREE).nodes.Keys == THREE
    ensures forall i :: i in THREE ==> Initial(THREE).nodes[i] == Node(Follower, 0, NOBODY, 0, [])
  {
    assert Exec(rule, Initial(THREE), []) == Initial(THREE);
  }

  lemma Step(rule: Rule, s: State, a: Action)
    requires Reach(rule, s) && WellFormed(s) && Enabled(s, a) && Permitted(rule, s, a)
    ensures Reach(rule, Apply(s, a)) && WellFormed(Apply(s, a)) && Apply(s, a).nodes.Keys == s.nodes.Keys
  {
    Start(rule);
    var run :| Legal(rule, Initial(THREE), run) && Exec(rule, Initial(THREE), run) == s;
    Extend(rule, Initial(THREE), run, a);
    ApplyWellFormed(s, a);
  }

  /** A reached state of the three nodes. */
  ghost predicate At(rule: Rule, s: State) {
    Reach(rule, s) && WellFormed(s) && s.nodes.Keys == THREE
  }

  /** `s'` differs from `s` in node `i` and in what the log and the rounds have gained. */
  ghost predicate Grown(s: State, s': State, i: int) {
    && i in s.nodes && i in s'.nodes
    && s'.nodes == s.nodes[i := s'.nodes[i]]
    && s.rounds <= s'.rounds
    && s'.beats == s.beats
    && s.log <= s'.log
  }

  /** Node `i` times out until it is a candidate of term `t`; its last election is wide open. */
  lemma {:induction false} Climb(rule: Rule, s: State, i: int, t: int) returns (s': State, k: nat)
    requires At(rule, s) && i in THREE && MayTimeOut(s.nodes[i]) && s.nodes[i].term < t
    ensures At(rule, s') && Grown(s, s', i)
    ensures s'.nodes[i].role == Candidate && s'.nodes[i].term == t && Voted(i, t, i) in s'.log
    ensures s'.nodes[i].announced == s.nodes[i].announced
    ensures |s.rounds| <= k < |s'.rounds| && s'.rounds[k].candidate == i && s'.rounds[k].term == t
    ensures s'.rounds[k].votes == 1 && s'.rounds[k].calls.Keys == THREE - {i}
    ensures forall p :: p in s'.rounds[k].calls ==> s'.rounds[k].calls[p] == Pending
    decreases t - s.nodes[i].term
  {
    Step(rule, s, TimeOut(i));
    var m := Open(s, i);
    if m.nodes[i].term == t {
      s', k := m, |s.rounds|;
    } else {
      s', k := Climb(rule, m, i, t);
      assert s'.nodes == s.nodes[i := s'.nodes[i]];
    }
  }

  ghost predicate Free(n: Node, t: int) {
    !n.role.Dead? && (n.term < t || (n.term == t && n.votedFor == NOBODY))
  }

  /** Peer `p` grants the vote asked for by election `k`. */
  lemma Grant(rule: Rule, s: State, k: nat, p: int) returns (s': State)
    requires At(rule, s) && Enabled(s, DeliverVote(k, p)) && Free(s.nodes[p], s.rounds[k].term)
    ensures At(rule, s') && s'.beats == s.beats
    ensures s'.log == s.log + [Voted(p, s.rounds[k].term, s.rounds[k].candidate)]
    ensures s'.nodes == s.nodes[p := s'.nodes[p]] && s'.nodes[p].term == s.rounds[k].term
    ensures s.nodes[p].term < s.rounds[k].term ==> s'.nodes[p].role == Follower
    ensures s.nodes[p].term < s.rounds[k].term ==>
      s'.nodes[p].announced == s.nodes[p].announced + [Announcement(false, s.nodes[p].term)]
    ensures var r := s.rounds[k];
      s'.rounds == s.rounds[k := r.(calls := r.calls[p := Answered(VoteReply(r.term, true))])]
  {
    Step(rule, s, DeliverVote(k, p));
    s' := ReceiveVote(s, k, p);
  }

  ghost predicate WonBy(s: State, t: int, i: int) {
    exists e :: e in s.log && e.Elected? && e.term == t && e.leader == i
  }

  /** The candidate of election `k` reads a granted vote and becomes leader of its current term. */
  lemma Win(rule: Rule, s: State, k: nat, p: int) returns (s': State)
    requires At(rule, s) && Enabled(s, ReadVote(k, p)) && Permitted(rule, s, ReadVote(k, p))
    requires var r := s.rounds[k];
      r.votes == 1 && r.calls[p].reply == VoteReply(r.term, true) && s.nodes[r.candidate].role.Candidate?
    ensures At(rule, s') && s'.beats == s.beats && s.log <= s'.log
    ensures var c := s.rounds[k].candidate;
      && s'.nodes == s.nodes[c := StartLeader(s.nodes[c])]
      && WonBy(s', s.nodes[c].term, c)
    ensures |s'.rounds| == |s.rounds| && forall j :: 0 <= j < |s.rounds| && j != k ==> s'.rounds[j] == s.rounds[j]
    ensures s'.rounds[k].calls == s.rounds[k].calls[p := Closed(true)]
    ensures s'.rounds[k].term == s.rounds[k].term && s'.rounds[k].candidate == s.rounds[k].candidate
  {
    Step(rule, s, ReadVote(k, p));
    s' := CountVote(s, k, p);
    assert |s.nodes| == |s.nodes.Keys| == 3;
    assert s'.log[|s.log|] in s'.log;
  }

  lemma LogKept(log: seq<Event>, log': seq<Event>, e: Event)
    requires log <= log' && e in log
    ensures e in log'
  {
  }

  lemma WonByKept(s: State, s': State, t: int, i: int)
    requires WonBy(s, t, i) && s.log <= s'.log
    ensures WonBy(s', t, i)
  {
  }

  /** Node `i` climbs to term `t` and wins it with the vote of `p`. */
  lemma Elect(rule: Rule, s: State, i: int, p: int, t: int) returns (s': State)
    requires At(rule, s) && Tolerant(rule) && i in THREE && p in THREE && p != i && t >= 1
    requires MayTimeOut(s.nodes[i]) && s.nodes[i].term < t
    requires !s.nodes[p].role.Dead? && s.nodes[p].term < t
    ensures At(rule, s') && s'.beats == s.beats && s.log <= s'.log && WonBy(s', t, i)
    ensures forall j :: j in THREE && j != i && j != p ==> s'.nodes[j] == s.nodes[j]
    ensures s'.nodes[i].role == Leader && s'.nodes[i].term == t
    ensures s'.nodes[p].role == Follower && s'.nodes[p].term == t
    ensures |s.rounds| <= |s'.rounds| && forall j :: 0 <= j < |s.rounds| ==> s'.rounds[j] == s.rounds[j]
  {
    var s1, k := Climb(rule, s, i, t);
    s' := WinWith(rule, s1, k, i, p);
  }

  /** The candidate `i` of election `k` wins with the vote of `p`. */
  lemma WinWith(rule: Rule, s: State, k: nat, i: int, p: int) returns (s': State)
    requires At(rule, s) && Tolerant(rule) && Enabled(s, DeliverVote(k, p)) && p != i
    requires s.rounds[k].candidate == i && s.rounds[k].votes == 1 && s.rounds[k].term >= 1
    requires s.nodes[i].role == Candidate && s.nodes[i].term == s.rounds[k].term
    requires !s.nodes[p].role.Dead? && s.nodes[p].term < s.rounds[k].term
    ensures At(rule, s') && s'.beats == s.beats && s.log <= s'.log && WonBy(s', s.rounds[k].term, i)
    ensures forall j :: j in THREE && j != i && j != p ==> s'.nodes[j] == s.nodes[j]
    ensures s'.nodes[i].role == Leader && s'.nodes[i].term == s.rounds[k].term
    ensures s'.nodes[p].role == Follower && s'.nodes[p].term == s.rounds[k].term
    ensures |s'.rounds| == |s.rounds| && forall j :: 0 <= j < |s.rounds| && j != k ==> s'.rounds[j] == s.rounds[j]
  {
    var s2 := Grant(rule, s, k, p);
    assert s2.nodes[i] == s.nodes[i];
    s' := Win(rule, s2, k, p);
    assert s'.nodes[p] == s2.nodes[p];
  }

  ghost predicate Tolerant(rule: Rule) {
    forall t :: t >= 1 ==> rule(Vote, t, t, t)
  }

  ghost predicate SafeRule(rule: Rule) {
    forall ids, run :: Members(ids) && Legal(rule, Initial(ids), run) ==> Safe(Exec(rule, Initial(ids), run))
  }

  lemma TwoLeaders(rule: Rule, s: State, t: int, i: int, j: int)
    requires At(rule, s) && WonBy(s, t, i) && WonBy(s, t, j) && i != j
    ensures !SafeRule(rule)
  {
  }

  /** A vote of term `saved` read in the later term `current` completes a majority there. */
  lemma LateVoteElects(rule: Rule, current: int, saved: int)
    requires Tolerant(rule) && 1 <= saved < current && rule(Vote, current, saved, saved)
    ensures !SafeRule(rule)
  {
    Start(rule);
    var s1, k0 := Climb(rule, Initial(THREE), 0, saved);
    var s2 := Grant(rule, s1, k0, 1);
    var s3, _ := Climb(rule, s2, 0, current);
    var s4 := Elect(rule, s3, 2, 1, current);
    var s5 := Win(rule, s4, k0, 1);
    WonByKept(s4, s5, current, 2);
    TwoLeaders(rule, s5, current, 0, 2);
  }

  /** Peer `p`, already in a later term, refuses election `k` and reports that term. */
  lemma Refuse(rule: Rule, s: State, k: nat, p: int) returns (s': State)
    requires At(rule, s) && Enabled(s, DeliverVote(k, p))
    requires !s.nodes[p].role.Dead? && s.nodes[p].term > s.rounds[k].term
    ensures At(rule, s') && s'.beats == s.beats && s.log == s'.log && s'.nodes == s.nodes
    ensures var r := s.rounds[k];
      s'.rounds == s.rounds[k := r.(calls := r.calls[p := Answered(VoteReply(s.nodes[p].term, false))])]
  {
    Step(rule, s, DeliverVote(k, p));
    s' := ReceiveVote(s, k, p);
  }

  /** The candidate of election `k` reads a later term and gives up. */
  lemma GiveUp(rule: Rule, s: State, k: nat, p: int) returns (s': State)
    requires At(rule, s) && Enabled(s, ReadVote(k, p)) && Permitted(rule, s, ReadVote(k, p))
    requires s.rounds[k].calls[p].reply.term > s.rounds[k].term && s.nodes[s.rounds[k].candidate].role.Candidate?
    ensures At(rule, s') && s'.beats == s.beats && s.log == s'.log
    ensures var c := s.rounds[k].candidate;
      s'.nodes == s.nodes[c := BecomeFollower(s.nodes[c], s.rounds[k].calls[p].reply.term)]
    ensures |s'.rounds| == |s.rounds| && forall j :: 0 <= j < |s.rounds| && j != k ==> s'.rounds[j] == s.rounds[j]
  {
    Step(rule, s, ReadVote(k, p));
    s' := CountVote(s, k, p);
  }

  /** Node 1, by now a candidate of `replied`, has refused node 0 its vote of `saved`. */
  lemma Refused(rule: Rule, saved: int, replied: int) returns (s: State, k0: nat, k1: nat)
    requires 1 <= saved < replied
    ensures At(rule, s) && k0 != k1 && k0 < |s.rounds| && k1 < |s.rounds|
    ensures s.rounds[k0].candidate == 0 && s.rounds[k0].term == saved && 1 in s.rounds[k0].calls
    ensures s.rounds[k0].calls[1] == Answered(VoteReply(replied, false))
    ensures s.nodes[0].role == Candidate && s.nodes[0].term == saved
    ensures s.nodes[1].role == Candidate && s.nodes[1].term == replied
    ensures s.nodes[2].role == Follower && s.nodes[2].term == 0
    ensures s.rounds[k1].candidate == 1 && s.rounds[k1].term == replied && s.rounds[k1].votes == 1
    ensures 0 in s.rounds[k1].calls && s.rounds[k1].calls[0] == Pending
  {
    Start(rule);
    s, k0 := Climb(rule, Initial(THREE), 0, saved);
    s, k1 := Climb(rule, s, 1, replied);
    s := Refuse(rule, s, k0, 1);
  }

  /** Node 0 is a candidate of `current` with an unread refusal of its election of `saved`, node 2
      has won `replied` with the vote of node 0, and node 1 is still a candidate of `replied`. */
  lemma RefusalPending(rule: Rule, current: int, saved: int, replied: int) returns (s: State, k0: nat, k1: nat)
    requires Tolerant(rule) && 1 <= saved < replied < current
    ensures At(rule, s) && WonBy(s, replied, 2) && k0 != k1
    ensures Enabled(s, ReadVote(k0, 1)) && s.rounds[k0].candidate == 0 && s.rounds[k0].term == saved
    ensures s.rounds[k0].calls[1].reply == VoteReply(replied, false)
    ensures s.nodes[0].role == Candidate && s.nodes[0].term == current
    ensures Enabled(s, DeliverVote(k1, 0)) && s.rounds[k1].candidate == 1 && s.rounds[k1].term == replied
    ensures s.rounds[k1].votes == 1 && s.nodes[1].role == Candidate && s.nodes[1].term == replied
  {
    s, k0, k1 := Refused(rule, saved, replied);
    s := Elect(rule, s, 2, 0, replied);
    var won := s;
    var k2;
    s, k2 := Climb(rule, s, 0, current);
    WonByKept(won, s, replied, 2);
  }

  /** A refusal takes the candidate back to a term in which it has already voted. */
  lemma LateRefusalElects(rule: Rule, current: int, saved: int, replied: int)
    requires Tolerant(rule) && 1 <= saved < replied < current && rule(Vote, current, saved, replied)
    ensures !SafeRule(rule)
  {
    var s1, k0, k1 := RefusalPending(rule, current, saved, replied);
    var s2 := GiveUp(rule, s1, k0, 1);
    var s3 := Grant(rule, s2, k1, 0);
    var s4 := Win(rule, s3, k1, 0);
    WonByKept(s1, s4, replied, 2);
    TwoLeaders(rule, s4, replied, 1, 2);
  }

  /** Node 0 has led term `saved` and holds an unread heartbeat reply of node 1, which is by now a
      candidate of `replied`. */
  lemma BeatAnswered(rule: Rule, saved: int, replied: int) returns (s: State, b: nat, k1: nat)
    requires Tolerant(rule) && 1 <= saved < replied
    ensures At(rule, s) && Enabled(s, ReadBeat(b)) && s.beats[b] == Beat(0, 1, saved, Returned(replied))
    ensures s.nodes[0].term == saved && s.nodes[0].role == Leader
    ensures s.nodes[1].term == replied && s.nodes[1].role == Candidate
    ensures s.nodes[2].term == 0 && s.nodes[2].role == Follower
    ensures Enabled(s, DeliverVote(k1, 0)) && s.rounds[k1].candidate == 1 && s.rounds[k1].term == replied
    ensures s.rounds[k1].votes == 1
  {
    Start(rule);
    s := Elect(rule, Initial(THREE), 0, 1, saved);
    Step(rule, s, SendBeat(0, 1));
    b := |s.beats|;
    s := Apply(s, SendBeat(0, 1));
    s, k1 := Climb(rule, s, 1, replied);
    Step(rule, s, DeliverBeat(b));
    s := ReceiveBeat(s, b);
  }

  /** Node 2 has won `current` with the vote of node 0, which has forgotten that vote, and node 1 is
      a candidate of `current` that node 0 has not answered yet. */
  lemma VoteForgotten(rule: Rule, current: int, saved: int, replied: int) returns (s: State, k1: nat)
    requires Tolerant(rule) && 1 <= saved < replied <= current && rule(Heartbeat, current, saved, replied)
    ensures At(rule, s) && WonBy(s, current, 2) && Free(s.nodes[0], current)
    ensures s.nodes[1].term == current && s.nodes[1].role == Candidate
    ensures Enabled(s, DeliverVote(k1, 0)) && s.rounds[k1].candidate == 1 && s.rounds[k1].term == current
    ensures s.rounds[k1].votes == 1
  {
    var b;
    s, b, k1 := BeatAnswered(rule, saved, replied);
    s := Elect(rule, s, 2, 0, current);
    var won := s;
    Step(rule, s, ReadBeat(b));
    s := ReturnBeat(s, b);
    if replied < current {
      s, k1 := Climb(rule, s, 1, current);
    }
    WonByKept(won, s, current, 2);
  }

  /** A heartbeat reply makes a former leader forget the vote it has given since. */
  lemma LateBeatElects(rule: Rule, current: int, saved: int, replied: int)
    requires Tolerant(rule) && 1 <= saved < replied <= current && rule(Heartbeat, current, saved, replied)
    ensures !SafeRule(rule)
  {
    var s1, k1 := VoteForgotten(rule, current, saved, replied);
    var s2 := Grant(rule, s1, k1, 0);
    var s3 := Win(rule, s2, k1, 0);
    WonByKept(s1, s3, current, 2);
    TwoLeaders(rule, s3, current, 1, 2);
  }

  /** Election Safety holds in all runs of all clusters exactly when no harmful reply is acted on. */
  lemma RuleIsExact(rule: Rule)
    requires Tolerant(rule)
    ensures SafeRule(rule) <==> Rejects(rule)
  {
    if Rejects(rule) {
      forall ids, run | Members(ids) && Legal(rule, Initial(ids), run)
        ensures Safe(Exec(rule, Initial(ids), run))
      {
        AtMostOneLeader(rule, ids, run);
      }
    } else {
      var kind, current, saved, replied :|
        Harmful(kind, current, saved, replied) && rule(kind, current, saved, replied);
      if kind == Heartbeat {
        LateBeatElects(rule, current, saved, replied);
      } else if saved == replied {
        LateVoteElects(rule, current, saved);
      } else {
        LateRefusalElects(rule, current, saved, replied);
      }
    }
  }

  /** The source, which acts on every reply, is not safe; one comparison of terms would make it so. */
  lemma SourceNeedsTheCheck()
    ensures !SafeRule(ANY_REPLY) && SafeRule(OWN_TERM)
  {
    RuleIsExact(ANY_REPLY);
    assert Harmful(Vote, 2, 1, 1);
    RuleIsExact(OWN_TERM);
  }

  /** Node 0 leads term 1 and node 2, also a candidate of term 1, has not answered it yet. */
  lemma RivalStands(rule: Rule) returns (s: State, k: nat)
    requires Tolerant(rule)
    ensures At(rule, s) && Voted(2, 1, 2) in s.log
    ensures s.nodes[0].role == Leader && s.nodes[0].term == 1
    ensures s.nodes[2].role == Candidate && s.nodes[2].term == 1
    ensures Enabled(s, DeliverVote(k, 2)) && s.rounds[k].candidate == 0 && s.rounds[k].term == 1
  {
    Start(rule);
    var s1, k1 := Climb(rule, Initial(THREE), 0, 1);
    var s2, _ := Climb(rule, s1, 2, 1);
    var s3 := Grant(rule, s2, k1, 1);
    s := Win(rule, s3, k1, 1);
    LogKept(s2.log, s.log, Voted(2, 1, 2));
    k := k1;
  }

  /** Even with the check, "one vote per term" is false: node 2 stands in term 1, hears from its
      leader, and then gives node 0 its second vote of the term. */
  lemma SecondVoteHappens(rule: Rule) returns (s: State)
    requires Tolerant(rule)
    ensures At(rule, s) && Voted(2, 1, 2) in s.log && Voted(2, 1, 0) in s.log
  {
    var s1, k := RivalStands(rule);
    Step(rule, s1, SendBeat(0, 2));
    var s2 := Apply(s1, SendBeat(0, 2));
    Step(rule, s2, DeliverBeat(|s1.beats|));
    var s3 := ReceiveBeat(s2, |s1.beats|);
    s := Grant(rule, s3, k, 2);
  }

  /** A stopped node takes up its role as a follower again exactly when it reads the reply to one of its
      own heartbeats and the reply is of a later term; that handler does not look at the role. */
  lemma DeadRisesExactly(s: State, a: Action, i: int)
    requires WellFormed(s) && Enabled(s, a) && i in s.nodes && s.nodes[i].role.Dead?
    ensures i in Apply(s, a).nodes
    ensures !Apply(s, a).nodes[i].role.Dead? <==>
      a.ReadBeat? && s.beats[a.beat].leader == i && s.beats[a.beat].status.term > s.beats[a.beat].term
  {
    ApplyWellFormed(s, a);
  }

  /** It happens even if replies are acted on only in the term that issued them. */
  lemma DeadRises() returns (s: State, a: Action)
    ensures At(OWN_TERM, s) && s.nodes[0].role.Dead? && Enabled(s, a) && Permitted(OWN_TERM, s, a)
    ensures Apply(s, a).nodes[0].role.Follower?
  {
    var led, b, k := BeatAnswered(OWN_TERM, 1, 2);
    Step(OWN_TERM, led, Halt(0));
    s, a := Apply(led, Halt(0)), ReadBeat(b);
    DeadRisesExactly(s, a, 0);
  }
}
