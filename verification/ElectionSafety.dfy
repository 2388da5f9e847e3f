/** Election Safety (section 5.2 and Figure 3 of Ongaro and Ousterhout, "In Search of an
    Understandable Consensus Algorithm"), although a node may clear its vote within a term. */
module ElectionSafety {
  import opened Options
  import opened Consensus
  import opened Cluster
  import opened Basics

  // --- What every node and the log keep -----------------------------------------------------

  function Past(log: seq<Event>): set<Event> {
    set e | e in log
  }

  ghost predicate Won(past: set<Event>, t: int) {
    exists e :: e in past && e.Elected? && e.term == t
  }

  ghost predicate NodesOk(nodes: map<int, Node>) {
    forall i :: i in nodes ==>
      i >= 0 && nodes[i].term >= 0 && (nodes[i].role.Candidate? || nodes[i].role.Leader? ==> nodes[i].votedFor == i)
  }

  ghost predicate Passive(n: Node) {
    n.role.Follower? || n.role.Dead?
  }

  /** A vote given to somebody else is kept for as long as the voter stays in that term. */
  ghost predicate VoteKept(nodes: map<int, Node>, e: Event)
    requires e.Voted?
  {
    && e.voter in nodes && e.candidate in nodes
    && 1 <= e.term <= nodes[e.voter].term
    && (e.term == nodes[e.voter].term && e.candidate != e.voter ==>
          nodes[e.voter].votedFor == e.candidate && Passive(nodes[e.voter]))
  }

  ghost predicate VotesKept(nodes: map<int, Node>, past: set<Event>) {
    forall e :: e in past && e.Voted? ==> VoteKept(nodes, e)
  }

  /** A node votes for at most one other node per term, whatever happened to its own candidacy. */
  ghost predicate OneOtherVote(past: set<Event>) {
    forall e, f | e in past && f in past && e.Voted? && f.Voted? && e.candidate != e.voter && f.candidate != f.voter ::
      e.voter == f.voter && e.term == f.term ==> e.candidate == f.candidate
  }

  ghost predicate Backed(nodes: map<int, Node>, past: set<Event>, e: Event)
    requires e.Elected?
  {
    && e.quorum <= nodes.Keys && 2 * |e.quorum| > |nodes.Keys| && e.leader in e.quorum
    && (forall u :: u in e.quorum ==> Voted(u, e.term, e.leader) in past)
    && (forall f :: f in past && f.Voted? && f.voter == e.leader && f.term == e.term ==> f.candidate == e.leader)
    && (nodes[e.leader].term == e.term ==>
          nodes[e.leader].votedFor == e.leader && (nodes[e.leader].role.Leader? || nodes[e.leader].role.Dead?))
  }

  ghost predicate AllBacked(nodes: map<int, Node>, past: set<Event>) {
    forall e :: e in past && e.Elected? ==> Backed(nodes, past, e)
  }

  ghost predicate OneLeaderPerTerm(past: set<Event>) {
    forall e, f | e in past && f in past && e.Elected? && f.Elected? :: e.term == f.term ==> e == f
  }

  ghost predicate LeadersWon(nodes: map<int, Node>, past: set<Event>) {
    forall i :: i in nodes && nodes[i].role.Leader? ==>
      exists e :: e in past && e.Elected? && e.leader == i && e.term == nodes[i].term
  }

  ghost predicate Core(nodes: map<int, Node>, past: set<Event>) {
    && NodesOk(nodes)
    && VotesKept(nodes, past)
    && OneOtherVote(past)
    && AllBacked(nodes, past)
    && OneLeaderPerTerm(past)
    && LeadersWon(nodes, past)
  }

  /** Changes that leave role, term and vote alone, or kill the node. */
  lemma CoreQuiet(nodes: map<int, Node>, past: set<Event>, v: int, n: Node)
    requires Core(nodes, past) && v in nodes
    requires n.term == nodes[v].term && n.votedFor == nodes[v].votedFor
    requires n.role == nodes[v].role || n.role == Dead
    ensures Core(nodes[v := n], past)
  {
  }

  /** Moving up to a later term as a follower. */
  lemma CoreRise(nodes: map<int, Node>, past: set<Event>, v: int, n: Node)
    requires Core(nodes, past) && v in nodes
    requires n.term > nodes[v].term && n.role == Follower
    ensures Core(nodes[v := n], past)
  {
  }

  /** Granting a vote. */
  lemma CoreGrant(nodes: map<int, Node>, past: set<Event>, v: int, c: int)
    requires Core(nodes, past) && v in nodes && c in nodes && nodes[v].role.Follower? && nodes[v].term >= 1
    requires nodes[v].votedFor == NOBODY || nodes[v].votedFor == c
    ensures Core(nodes[v := nodes[v].(votedFor := c)], past + {Voted(v, nodes[v].term, c)})
  {
    var e := Voted(v, nodes[v].term, c);
    var nodes', past' := nodes[v := nodes[v].(votedFor := c)], past + {e};
    GrantVotes(nodes, past, v, c);
    assert AllBacked(nodes', past') by {
      forall x | x in past' && x.Elected? ensures Backed(nodes', past', x) {
        GrantBacked(nodes, past, v, c, x);
      }
    }
    LeadersWonKept(nodes, nodes', past, past');
  }

  lemma GrantVotes(nodes: map<int, Node>, past: set<Event>, v: int, c: int)
    requires VotesKept(nodes, past) && OneOtherVote(past) && NodesOk(nodes)
    requires v in nodes && c in nodes && nodes[v].role.Follower? && nodes[v].term >= 1
    requires nodes[v].votedFor == NOBODY || nodes[v].votedFor == c
    ensures VotesKept(nodes[v := nodes[v].(votedFor := c)], past + {Voted(v, nodes[v].term, c)})
    ensures OneOtherVote(past + {Voted(v, nodes[v].term, c)})
  {
  }

  lemma GrantBacked(nodes: map<int, Node>, past: set<Event>, v: int, c: int, x: Event)
    requires v in nodes && c in nodes && nodes[v].role.Follower? && NodesOk(nodes)
    requires VotesKept(nodes, past) && x.Elected? && Backed(nodes, past, x)
    ensures Backed(nodes[v := nodes[v].(votedFor := c)], past + {Voted(v, nodes[v].term, c)}, x)
  {
  }

  lemma LeadersWonKept(nodes: map<int, Node>, nodes': map<int, Node>, past: set<Event>, past': set<Event>)
    requires LeadersWon(nodes, past) && past <= past'
    requires forall i | i in nodes' && nodes'[i].role.Leader? ::
      i in nodes && nodes[i].role.Leader? && nodes[i].term == nodes'[i].term
    ensures LeadersWon(nodes', past')
  {
  }

  /** Opening an election in the next term. */
  lemma CoreOpen(nodes: map<int, Node>, past: set<Event>, v: int)
    requires Core(nodes, past) && v in nodes
    ensures Core(nodes[v := StartElection(nodes[v], v)], past + {Voted(v, nodes[v].term + 1, v)})
  {
  }

  /** A candidate giving up within its term; this is what clears a vote. */
  lemma CoreAside(nodes: map<int, Node>, past: set<Event>, v: int, n: Node)
    requires Core(nodes, past) && v in nodes && nodes[v].role.Candidate?
    requires n.term == nodes[v].term && n.role == Follower
    ensures Core(nodes[v := n], past)
  {
  }

  lemma MajoritiesMeet(all: set<int>, a: set<int>, b: set<int>)
    requires a <= all && b <= all && 2 * |a| > |all| && 2 * |b| > |all|
    ensures exists u :: u in a && u in b
  {
    assert all == (a + b) + (all - (a + b));
    assert |a * b| == |a| + |b| - |a + b|;
    var u := Member(a * b);
  }

  /** A candidate with a majority of its term's votes is the first to have one: the node in both
      majorities voted twice in the term, and none of the three ways to do that is open to it. */
  lemma NotYetWon(nodes: map<int, Node>, past: set<Event>, v: int, quorum: set<int>)
    requires Core(nodes, past) && v in nodes && nodes[v].role.Candidate?
    requires quorum <= nodes.Keys && 2 * |quorum| > |nodes.Keys| && v in quorum
    requires forall u :: u in quorum ==> Voted(u, nodes[v].term, v) in past
    ensures !Won(past, nodes[v].term)
  {
    if Won(past, nodes[v].term) {
      var e :| e in past && e.Elected? && e.term == nodes[v].term;
      assert Backed(nodes, past, e);
      MajoritiesMeet(nodes.Keys, quorum, e.quorum);
    }
  }

  lemma CoreWin(nodes: map<int, Node>, past: set<Event>, v: int, quorum: set<int>)
    requires Core(nodes, past) && v in nodes && nodes[v].role.Candidate?
    requires quorum <= nodes.Keys && 2 * |quorum| > |nodes.Keys| && v in quorum
    requires forall u :: u in quorum ==> Voted(u, nodes[v].term, v) in past
    ensures Core(nodes[v := StartLeader(nodes[v])], past + {Elected(nodes[v].term, v, quorum)})
  {
    NotYetWon(nodes, past, v, quorum);
    var w := Elected(nodes[v].term, v, quorum);
    var nodes', past' := nodes[v := StartLeader(nodes[v])], past + {w};
    assert nodes'.Keys == nodes.Keys;
    WinVotes(nodes, past, v, w);
    WinBacked(nodes, past, v, w);
    WinLeaders(nodes, past, v, w);
  }

  lemma WinVotes(nodes: map<int, Node>, past: set<Event>, v: int, w: Event)
    requires v in nodes && nodes[v].role.Candidate? && w.Elected? && w.term == nodes[v].term
    requires VotesKept(nodes, past) && OneOtherVote(past) && OneLeaderPerTerm(past) && !Won(past, w.term)
    ensures VotesKept(nodes[v := StartLeader(nodes[v])], past + {w})
    ensures OneOtherVote(past + {w}) && OneLeaderPerTerm(past + {w})
  {
  }

  lemma WinBacked(nodes: map<int, Node>, past: set<Event>, v: int, w: Event)
    requires v in nodes && nodes[v].role.Candidate? && VotesKept(nodes, past) && AllBacked(nodes, past)
    requires nodes[v].votedFor == v
    requires w.Elected? && w.term == nodes[v].term && w.leader == v && v in w.quorum
    requires w.quorum <= nodes.Keys && 2 * |w.quorum| > |nodes.Keys|
    requires forall u :: u in w.quorum ==> Voted(u, w.term, v) in past
    ensures AllBacked(nodes[v := StartLeader(nodes[v])], past + {w})
  {
  }

  lemma WinLeaders(nodes: map<int, Node>, past: set<Event>, v: int, w: Event)
    requires v in nodes && LeadersWon(nodes, past)
    requires w.Elected? && w.leader == v && w.term == nodes[v].term
    ensures LeadersWon(nodes[v := StartLeader(nodes[v])], past + {w})
  {
  }

  // --- Calls in flight ---------------------------------------------------------------------

  /** The counter of an election is one more than the number of distinct peers whose votes it
      has counted, and every granted reply stands for a vote in the log. */
  ghost predicate RoundOk(nodes: map<int, Node>, past: set<Event>, r: Round) {
    && r.candidate in nodes && 1 <= r.term <= nodes[r.candidate].term
    && Voted(r.candidate, r.term, r.candidate) in past
    && r.votes == 1 + |Counted(r)|
    && (forall p :: p in Counted(r) ==> Voted(p, r.term, r.candidate) in past)
    && (forall p :: p in r.calls && r.calls[p].Answered? && r.calls[p].reply.granted ==>
          r.calls[p].reply.term == r.term && Voted(p, r.term, r.candidate) in past)
  }

  ghost predicate RoundsOk(s: State) {
    forall k :: 0 <= k < |s.rounds| ==> RoundOk(s.nodes, Past(s.log), s.rounds[k])
  }

  ghost predicate BeatOk(past: set<Event>, b: Beat) {
    exists e :: e in past && e.Elected? && e.term == b.term && e.leader == b.leader
  }

  ghost predicate BeatsOk(s: State) {
    forall b :: 0 <= b < |s.beats| ==> BeatOk(Past(s.log), s.beats[b])
  }

  ghost predicate Inv(s: State) {
    && WellFormed(s)
    && Core(s.nodes, Past(s.log))
    && RoundsOk(s)
    && BeatsOk(s)
  }

  ghost predicate TermsGrow(s: State, s': State) {
    && s'.nodes.Keys == s.nodes.Keys
    && (forall i :: i in s.nodes ==> s.nodes[i].term <= s'.nodes[i].term)
    && Past(s.log) <= Past(s'.log)
  }

  lemma PastAppend(log: seq<Event>, e: Event)
    ensures Past(log + [e]) == Past(log) + {e}
  {
  }

  /** Calls that did not change stay sound when terms and the log only grow. */
  lemma CallsKept(s: State, s': State)
    requires RoundsOk(s) && BeatsOk(s) && TermsGrow(s, s')
    ensures forall k :: 0 <= k < |s.rounds| ==> RoundOk(s'.nodes, Past(s'.log), s.rounds[k])
    ensures forall b :: 0 <= b < |s.beats| ==> BeatOk(Past(s'.log), s.beats[b])
  {
  }

  predicate Harmless(s: State, a: Action)
    requires WellFormed(s) && Enabled(s, a)
  {
    Permitted((kind, current, saved, replied) => !Harmful(kind, current, saved, replied), s, a)
  }

  // --- Every step keeps the invariant -------------------------------------------------------

  lemma InvOpen(s: State, i: int)
    requires Inv(s) && Enabled(s, TimeOut(i))
    ensures Inv(Open(s, i)) && TermsGrow(s, Open(s, i))
  {
    var s' := Open(s, i);
    ApplyWellFormed(s, TimeOut(i));
    var e := Voted(i, s.nodes[i].term + 1, i);
    PastAppend(s.log, e);
    CoreOpen(s.nodes, Past(s.log), i);
    CallsKept(s, s');
    assert Counted(s'.rounds[|s.rounds|]) == {};
  }

  /** The voter's part of a vote request. */
  lemma VoterKeepsCore(nodes: map<int, Node>, past: set<Event>, p: int, term: int, c: int)
    requires Core(nodes, past) && p in nodes && c in nodes && p != c && term >= 1
    ensures var (n, reply) := OnRequestVote(nodes[p], term, c);
      && Core(nodes[p := n], if reply.Some? && reply.value.granted then past + {Voted(p, term, c)} else past)
      && n.term >= nodes[p].term
      && (reply.Some? && reply.value.granted ==> reply.value.term == term)
  {
    if nodes[p].role.Dead? {
      CoreQuiet(nodes, past, p, nodes[p]);
    } else {
      var m := if term > nodes[p].term then BecomeFollower(nodes[p], term) else nodes[p];
      if term > nodes[p].term {
        CoreRise(nodes, past, p, m);
      } else {
        CoreQuiet(nodes, past, p, m);
      }
      if m.term == term && (m.votedFor == NOBODY || m.votedFor == c) {
        CoreGrant(nodes[p := m], past, p, c);
        assert nodes[p := m][p := m.(votedFor := c)] == nodes[p := m.(votedFor := c)];
      }
    }
  }

  lemma InvReceiveVote(s: State, k: nat, p: int)
    requires Inv(s) && Enabled(s, DeliverVote(k, p))
    ensures Inv(ReceiveVote(s, k, p)) && TermsGrow(s, ReceiveVote(s, k, p))
  {
    var s' := ReceiveVote(s, k, p);
    ApplyWellFormed(s, DeliverVote(k, p));
    var r := s.rounds[k];
    VoterKeepsCore(s.nodes, Past(s.log), p, r.term, r.candidate);
    PastAppend(s.log, Voted(p, r.term, r.candidate));
    CallsKept(s, s');
    RoundAnswered(s'.nodes, Past(s'.log), r, s'.rounds[k], p);
  }

  /** A call that was pending has been answered, truthfully if with a vote, or lost. */
  lemma RoundAnswered(nodes: map<int, Node>, past: set<Event>, r: Round, r': Round, p: int)
    requires RoundOk(nodes, past, r) && p in r.calls && r.calls[p].Pending? && p in r'.calls
    requires r' == r.(calls := r.calls[p := r'.calls[p]]) && r'.calls[p] != Closed(true)
    requires r'.calls[p].Answered? && r'.calls[p].reply.granted ==>
      r'.calls[p].reply.term == r.term && Voted(p, r.term, r.candidate) in past
    ensures RoundOk(nodes, past, r')
  {
    assert Counted(r') == Counted(r);
  }

  /** The candidate's counter is exact before and after one reply. */
  lemma RoundCounts(nodes: map<int, Node>, past: set<Event>, r: Round, p: int, votes: int)
    requires RoundOk(nodes, past, r) && p in r.calls && r.calls[p].Answered?
    requires votes == r.votes || (votes == r.votes + 1 && r.calls[p].reply.granted)
    ensures RoundOk(nodes, past, r.(votes := votes, calls := r.calls[p := Closed(votes != r.votes)]))
  {
    var r' := r.(votes := votes, calls := r.calls[p := Closed(votes != r.votes)]);
    assert Counted(r') == if votes != r.votes then Counted(r) + {p} else Counted(r);
  }

  lemma CandidateKeepsCore(s: State, k: nat, p: int)
    requires Inv(s) && Enabled(s, ReadVote(k, p)) && Harmless(s, ReadVote(k, p))
    ensures var s' := CountVote(s, k, p);
      && Core(s'.nodes, Past(s'.log))
      && s.nodes[s.rounds[k].candidate].term <= s'.nodes[s.rounds[k].candidate].term
  {
    var s' := CountVote(s, k, p);
    var r := s.rounds[k];
    var c := s.nodes[r.candidate];
    var (n, votes) := OnVoteReply(c, r.term, r.votes, |s.nodes|, r.calls[p].reply);
    if !c.role.Candidate? || n == c {
      CoreQuiet(s.nodes, Past(s.log), r.candidate, n);
    } else if r.calls[p].reply.term > c.term {
      CoreRise(s.nodes, Past(s.log), r.candidate, n);
    } else if r.calls[p].reply.term > r.term {
      CoreAside(s.nodes, Past(s.log), r.candidate, n);
    } else {
      var r' := s'.rounds[k];
      RoundCounts(s.nodes, Past(s.log), r, p, votes);
      assert Backers(r') <= s.nodes.Keys;
      assert r.candidate !in Counted(r');
      assert |Backers(r')| == votes;
      CoreWin(s.nodes, Past(s.log), r.candidate, Backers(r'));
      PastAppend(s.log, Elected(n.term, r.candidate, Backers(r')));
    }
  }

  lemma InvCountVote(s: State, k: nat, p: int)
    requires Inv(s) && Enabled(s, ReadVote(k, p)) && Harmless(s, ReadVote(k, p))
    ensures Inv(CountVote(s, k, p)) && TermsGrow(s, CountVote(s, k, p))
  {
    var s' := CountVote(s, k, p);
    ApplyWellFormed(s, ReadVote(k, p));
    CandidateKeepsCore(s, k, p);
    CallsKept(s, s');
    RoundCounts(s'.nodes, Past(s'.log), s.rounds[k], p, s'.rounds[k].votes);
  }

  lemma InvReceiveBeat(s: State, b: nat)
    requires Inv(s) && Enabled(s, DeliverBeat(b))
    ensures Inv(ReceiveBeat(s, b)) && TermsGrow(s, ReceiveBeat(s, b))
  {
    var s' := ReceiveBeat(s, b);
    ApplyWellFormed(s, DeliverBeat(b));
    var m := s.beats[b];
    var n := s'.nodes[m.to];
    var before := s.nodes[m.to];
    assert BeatOk(Past(s.log), m);
    if !before.role.Dead? && m.term > before.term {
      CoreRise(s.nodes, Past(s.log), m.to, n);
    } else if !before.role.Dead? && m.term == before.term && !before.role.Follower? {
      CoreAside(s.nodes, Past(s.log), m.to, n);
    } else {
      CoreQuiet(s.nodes, Past(s.log), m.to, n);
    }
    CallsKept(s, s');
    BeatMoved(s, s', b);
  }

  /** A beat that only changed status is still backed by the election that sent it. */
  lemma BeatMoved(s: State, s': State, b: nat)
    requires BeatsOk(s) && b < |s.beats| && Past(s.log) == Past(s'.log)
    requires |s'.beats| == |s.beats| && s'.beats == s.beats[b := s.beats[b].(status := s'.beats[b].status)]
    ensures BeatsOk(s')
  {
  }

  lemma InvReturnBeat(s: State, b: nat)
    requires Inv(s) && Enabled(s, ReadBeat(b)) && Harmless(s, ReadBeat(b))
    ensures Inv(ReturnBeat(s, b)) && TermsGrow(s, ReturnBeat(s, b))
  {
    var s' := ReturnBeat(s, b);
    ApplyWellFormed(s, ReadBeat(b));
    var m := s.beats[b];
    assert BeatOk(Past(s.log), m);
    if m.status.term > m.term {
      CoreRise(s.nodes, Past(s.log), m.leader, s'.nodes[m.leader]);
    } else {
      CoreQuiet(s.nodes, Past(s.log), m.leader, s'.nodes[m.leader]);
    }
    CallsKept(s, s');
    BeatMoved(s, s', b);
  }

  lemma InvSendBeat(s: State, i: int, p: int)
    requires Inv(s) && Enabled(s, SendBeat(i, p))
    ensures Inv(Apply(s, SendBeat(i, p))) && TermsGrow(s, Apply(s, SendBeat(i, p)))
  {
  }

  lemma InvHalt(s: State, i: int)
    requires Inv(s) && Enabled(s, Halt(i))
    ensures Inv(Apply(s, Halt(i))) && TermsGrow(s, Apply(s, Halt(i)))
  {
    ApplyWellFormed(s, Halt(i));
    CoreQuiet(s.nodes, Past(s.log), i, Stop(s.nodes[i]));
    CallsKept(s, Apply(s, Halt(i)));
  }

  lemma InvStep(s: State, a: Action)
    requires Inv(s) && Enabled(s, a) && Harmless(s, a)
    ensures Inv(Apply(s, a)) && TermsGrow(s, Apply(s, a))
  {
    match a
    case TimeOut(i) => InvOpen(s, i);
    case DeliverVote(k, p) => InvReceiveVote(s, k, p);
    case ReadVote(k, p) => InvCountVote(s, k, p);
    case SendBeat(i, p) => InvSendBeat(s, i, p);
    case DeliverBeat(b) => InvReceiveBeat(s, b);
    case ReadBeat(b) => InvReturnBeat(s, b);
    case Halt(i) => InvHalt(s, i);
  }

  // --- Every run ---------------------------------------------------------------------------

  ghost predicate Rejects(rule: Rule) {
    forall kind, current, saved, replied :: Harmful(kind, current, saved, replied) ==>
      !rule(kind, current, saved, replied)
  }

  predicate Members(ids: set<int>) {
    ids != {} && forall i :: i in ids ==> i >= 0
  }

  lemma InvInitial(ids: set<int>)
    requires Members(ids) && |ids| > 1
    ensures Inv(Initial(ids))
  {
  }

  lemma {:induction false} InvRun(rule: Rule, s: State, run: seq<Action>)
    requires Inv(s) && Rejects(rule) && Legal(rule, s, run)
    ensures Inv(Exec(rule, s, run)) && TermsGrow(s, Exec(rule, s, run))
    decreases |run|
  {
    if run != [] {
      InvStep(s, run[0]);
      InvRun(rule, Apply(s, run[0]), run[1..]);
    }
  }

  /** A single node is its own leader and never meets another. */
  lemma {:induction false} LonelyRun(rule: Rule, s: State, run: seq<Action>)
    requires WellFormed(s) && |s.nodes.Keys| == 1 && s.rounds == [] && s.beats == [] && s.log == []
    requires forall i :: i in s.nodes ==> !MayTimeOut(s.nodes[i])
    requires Legal(rule, s, run)
    ensures var s' := Exec(rule, s, run); s'.nodes.Keys == s.nodes.Keys && s'.log == []
    decreases |run|
  {
    if run != [] {
      var i := Member(s.nodes.Keys);
      assert s.nodes.Keys == {i} by {
        assert |s.nodes.Keys - {i}| == 0;
      }
      ApplyWellFormed(s, run[0]);
      LonelyRun(rule, Apply(s, run[0]), run[1..]);
    }
  }

  ghost predicate Safe(s: State) {
    && OneLeaderPerTerm(Past(s.log))
    && (forall i, j | i in s.nodes && j in s.nodes && s.nodes[i].role.Leader? && s.nodes[j].role.Leader? ::
          s.nodes[i].term == s.nodes[j].term ==> i == j)
  }

  /** Election Safety: whatever is delayed, lost or reordered, at most one node is ever elected in
      a term, and two nodes are never leader in the same term at the same time. */
  lemma AtMostOneLeader(rule: Rule, ids: set<int>, run: seq<Action>)
    requires Members(ids) && Rejects(rule) && Legal(rule, Initial(ids), run)
    ensures Safe(Exec(rule, Initial(ids), run))
  {
    var s := Initial(ids);
    assert s.nodes.Keys == ids;
    if |ids| == 1 {
      LonelyRun(rule, s, run);
      var i := Member(ids);
      assert ids == {i} by {
        assert |ids - {i}| == 0;
      }
    } else {
      InvInitial(ids);
      InvRun(rule, s, run);
    }
  }

  /** In the same runs terms never decrease, and every member of a leader's quorum keeps its vote
      for that leader while it stays in the leader's term. */
  lemma QuorumKeepsItsVote(rule: Rule, ids: set<int>, run: seq<Action>, more: seq<Action>)
    requires Members(ids) && |ids| > 1 && Rejects(rule) && Legal(rule, Initial(ids), run)
    requires Legal(rule, Exec(rule, Initial(ids), run), more)
    ensures var s := Exec(rule, Initial(ids), run); var s' := Exec(rule, s, more);
      && TermsGrow(s, s')
      && (forall e, u | e in s.log && e.Elected? && u in e.quorum && u in s'.nodes ::
            s'.nodes[u].term >= e.term && (s'.nodes[u].term == e.term ==> s'.nodes[u].votedFor == e.leader))
      && (forall e | e in s.log && e.Elected? :: e.quorum <= ids && 2 * |e.quorum| > |ids|)
  {
    var s := Exec(rule, Initial(ids), run);
    var s' := Exec(rule, s, more);
    InvInitial(ids);
    InvRun(rule, Initial(ids), run);
    InvRun(rule, s, more);
    assert Initial(ids).nodes.Keys == ids;
    forall e | e in s.log && e.Elected?
      ensures Backed(s'.nodes, Past(s'.log), e)
    {
      assert e in Past(s.log);
    }
    forall e, u | e in s.log && e.Elected? && u in e.quorum && u in s'.nodes
      ensures s'.nodes[u].term >= e.term && (s'.nodes[u].term == e.term ==> s'.nodes[u].votedFor == e.leader)
    {
      assert Backed(s'.nodes, Past(s'.log), e);
      assert VoteKept(s'.nodes, Voted(u, e.term, e.leader));
    }
  }
}
