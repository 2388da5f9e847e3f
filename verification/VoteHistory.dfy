/** How often a node votes in one term. Once per term is what the Raft paper asks for; the source
    clears a vote when a candidate hears from a leader of its own term, so a node may vote twice. These
    lemmas say exactly when, and that it takes an election won before. */
module VoteHistory {
  import opened Options
  import opened Consensus
  import opened Cluster
  import opened ElectionSafety

  /** Until a term has a leader, every vote of that term is its voter's only one. */
  ghost predicate SingleVotes(nodes: map<int, Node>, past: set<Event>)
    requires VotesKept(nodes, past)
  {
    && (forall e :: e in past && e.Voted? && !Won(past, e.term) && nodes[e.voter].term == e.term ==>
          nodes[e.voter].votedFor == e.candidate)
    && (forall e, f | e in past && f in past && e.Voted? && f.Voted? && !Won(past, e.term) ::
          e.voter == f.voter && e.term == f.term ==> e.candidate == f.candidate)
  }

  /** A second candidate gets a node's vote in a term only after the node's own candidacy in it,
      and only once the term has a leader. */
  ghost predicate Ordered(log: seq<Event>) {
    forall i, j | 0 <= i < j < |log| && log[i].Voted? && log[j].Voted? ::
      log[i].voter == log[j].voter && log[i].term == log[j].term && log[i].candidate != log[j].candidate
      ==> log[i].candidate == log[i].voter && Won(Past(log[..j]), log[j].term)
  }

  predicate Regress(kind: Kind, current: int, saved: int, replied: int) {
    saved >= 1 && (saved < replied <= current || (kind == Vote && saved == replied < current))
  }

  /** Rules under which acting on a reply always raises the term or stays within the request's. */
  ghost predicate Raises(rule: Rule) {
    forall kind, current, saved, replied :: Regress(kind, current, saved, replied) ==>
      !rule(kind, current, saved, replied)
  }

  lemma OwnTermRaises()
    ensures Raises(OWN_TERM) && Rejects(OWN_TERM)
  {
  }

  lemma WonVote(past: set<Event>, e: Event)
    requires e.Voted?
    ensures forall t :: Won(past + {e}, t) <==> Won(past, t)
  {
  }

  lemma SingleGrant(nodes: map<int, Node>, past: set<Event>, v: int, c: int)
    requires Core(nodes, past) && SingleVotes(nodes, past)
    requires v in nodes && c in nodes && nodes[v].role.Follower? && nodes[v].term >= 1
    requires nodes[v].votedFor == NOBODY || nodes[v].votedFor == c
    ensures VotesKept(nodes[v := nodes[v].(votedFor := c)], past + {Voted(v, nodes[v].term, c)})
    ensures SingleVotes(nodes[v := nodes[v].(votedFor := c)], past + {Voted(v, nodes[v].term, c)})
  {
    GrantVotes(nodes, past, v, c);
    WonVote(past, Voted(v, nodes[v].term, c));
  }

  lemma SingleOpen(nodes: map<int, Node>, past: set<Event>, v: int)
    requires Core(nodes, past) && SingleVotes(nodes, past) && v in nodes
    ensures VotesKept(nodes[v := StartElection(nodes[v], v)], past + {Voted(v, nodes[v].term + 1, v)})
    ensures SingleVotes(nodes[v := StartElection(nodes[v], v)], past + {Voted(v, nodes[v].term + 1, v)})
  {
  }

  /** A node may lose its vote only by leaving the term, or in a term that has a leader. */
  lemma SingleKept(nodes: map<int, Node>, past: set<Event>, v: int, n: Node, past': set<Event>)
    requires VotesKept(nodes, past) && SingleVotes(nodes, past) && v in nodes
    requires VotesKept(nodes[v := n], past') && past <= past'
    requires forall e :: e in past' && e.Voted? ==> e in past
    requires n.term >= nodes[v].term
    requires n.term == nodes[v].term ==> n.votedFor == nodes[v].votedFor || Won(past, n.term)
    ensures SingleVotes(nodes[v := n], past')
  {
  }

  lemma OrderedAppend(log: seq<Event>, e: Event)
    requires Ordered(log)
    requires e.Voted? ==> forall f | f in log && f.Voted? && f.voter == e.voter && f.term == e.term ::
      f.candidate != e.candidate ==> f.candidate == f.voter && Won(Past(log), e.term)
    ensures Ordered(log + [e])
  {
    var log' := log + [e];
    forall i, j | 0 <= i < j < |log'| && log'[i].Voted? && log'[j].Voted?
      && log'[i].voter == log'[j].voter && log'[i].term == log'[j].term && log'[i].candidate != log'[j].candidate
      ensures log'[i].candidate == log'[i].voter && Won(Past(log'[..j]), log'[j].term)
    {
      assert log'[i] == log[i];
      if j < |log| {
        assert log'[..j] == log[..j];
      } else {
        assert log[i] in log;
        assert log'[..j] == log;
      }
    }
  }

  ghost predicate History(s: State)
    requires Inv(s)
  {
    SingleVotes(s.nodes, Past(s.log)) && Ordered(s.log)
  }

  /** What a vote being granted, or a candidacy, does to the order of the log. */
  lemma OrderedVote(nodes: map<int, Node>, log: seq<Event>, e: Event)
    requires VotesKept(nodes, Past(log)) && SingleVotes(nodes, Past(log)) && Ordered(log)
    requires e.Voted? && e.voter in nodes && nodes[e.voter].term <= e.term
    requires nodes[e.voter].term == e.term ==>
      nodes[e.voter].votedFor == NOBODY || nodes[e.voter].votedFor == e.candidate
    requires forall i :: i in nodes ==> i >= 0
    ensures Ordered(log + [e])
  {
    forall f | f in log && f.Voted? && f.voter == e.voter && f.term == e.term && f.candidate != e.candidate
      ensures f.candidate == f.voter && Won(Past(log), e.term)
    {
      assert f in Past(log);
      assert VoteKept(nodes, f);
    }
    OrderedAppend(log, e);
  }

  lemma HistoryReceiveVote(s: State, k: nat, p: int)
    requires Inv(s) && History(s) && Enabled(s, DeliverVote(k, p)) && Inv(ReceiveVote(s, k, p))
    ensures History(ReceiveVote(s, k, p))
  {
    var s' := ReceiveVote(s, k, p);
    var past := Past(s.log);
    var r := s.rounds[k];
    var b := s.nodes[p];
    var n := s'.nodes[p];
    var e := Voted(p, r.term, r.candidate);
    assert RoundOk(s.nodes, past, r);
    if s'.log == s.log {
      SingleKept(s.nodes, past, p, n, past);
    } else {
      PastAppend(s.log, e);
      var m := if r.term > b.term then BecomeFollower(b, r.term) else b;
      if r.term > b.term {
        CoreRise(s.nodes, past, p, m);
        SingleKept(s.nodes, past, p, m, past);
      }
      var mid := s.nodes[p := m];
      assert r.term <= b.term ==> mid == s.nodes;
      SingleGrant(mid, past, p, r.candidate);
      assert mid[p := n] == s'.nodes;
      OrderedVote(s.nodes, s.log, e);
    }
  }

  lemma HistoryOpen(s: State, i: int)
    requires Inv(s) && History(s) && Enabled(s, TimeOut(i)) && Inv(Open(s, i))
    ensures History(Open(s, i))
  {
    var e := Voted(i, s.nodes[i].term + 1, i);
    PastAppend(s.log, e);
    SingleOpen(s.nodes, Past(s.log), i);
    OrderedVote(s.nodes, s.log, e);
  }

  lemma HistoryCountVote(s: State, k: nat, p: int)
    requires Inv(s) && History(s) && Enabled(s, ReadVote(k, p)) && Inv(CountVote(s, k, p))
    requires var r := s.rounds[k]; !Regress(Vote, s.nodes[r.candidate].term, r.term, r.calls[p].reply.term)
    ensures History(CountVote(s, k, p))
  {
    var s' := CountVote(s, k, p);
    var r := s.rounds[k];
    assert RoundOk(s.nodes, Past(s.log), r);
    var w := Elected(s'.nodes[r.candidate].term, r.candidate, Backers(s'.rounds[k]));
    PastAppend(s.log, w);
    SingleKept(s.nodes, Past(s.log), r.candidate, s'.nodes[r.candidate], Past(s'.log));
    if s'.log != s.log {
      OrderedAppend(s.log, w);
    }
  }

  /** A heartbeat comes from a leader of its term, and its sender has not gone back behind it. */
  lemma BeatOfLeader(s: State, b: nat)
    requires Inv(s) && b < |s.beats|
    ensures Won(Past(s.log), s.beats[b].term) && s.beats[b].term <= s.nodes[s.beats[b].leader].term
  {
  }

  lemma HistoryBeats(s: State, a: Action)
    requires Inv(s) && History(s) && Enabled(s, a) && Inv(Apply(s, a))
    requires a.DeliverBeat? || (a.ReadBeat? && var m := s.beats[a.beat];
      !Regress(Heartbeat, s.nodes[m.leader].term, m.term, m.status.term))
    ensures History(Apply(s, a))
  {
    var s' := Apply(s, a);
    var m := s.beats[a.beat];
    BeatOfLeader(s, a.beat);
    var v := if a.DeliverBeat? then m.to else m.leader;
    SingleKept(s.nodes, Past(s.log), v, s'.nodes[v], Past(s'.log));
  }

  lemma HistoryStep(rule: Rule, s: State, a: Action)
    requires Inv(s) && History(s) && Enabled(s, a) && Raises(rule) && Rejects(rule) && Permitted(rule, s, a)
    ensures Inv(Apply(s, a)) && History(Apply(s, a))
  {
    InvStep(s, a);
    match a
    case TimeOut(i) => HistoryOpen(s, i);
    case DeliverVote(k, p) => HistoryReceiveVote(s, k, p);
    case ReadVote(k, p) => HistoryCountVote(s, k, p);
    case SendBeat(i, p) =>
    case DeliverBeat(b) => HistoryBeats(s, a);
    case ReadBeat(b) => HistoryBeats(s, a);
    case Halt(i) => SingleKept(s.nodes, Past(s.log), i, Stop(s.nodes[i]), Past(s.log));
  }

  lemma {:induction false} HistoryRun(rule: Rule, s: State, run: seq<Action>)
    requires Inv(s) && History(s) && Raises(rule) && Rejects(rule) && Legal(rule, s, run)
    ensures Inv(Exec(rule, s, run)) && History(Exec(rule, s, run))
    decreases |run|
  {
    if run != [] {
      HistoryStep(rule, s, run[0]);
      HistoryRun(rule, Apply(s, run[0]), run[1..]);
    }
  }

  /** In every run a node gives its vote of one term to two different candidates only if the first
      was itself and the term already had a leader when the second vote was given. */
  lemma SecondVoteOnlyAfterElection(rule: Rule, ids: set<int>, run: seq<Action>, i: nat, j: nat)
    requires Members(ids) && |ids| > 1 && Raises(rule) && Rejects(rule) && Legal(rule, Initial(ids), run)
    requires var log := Exec(rule, Initial(ids), run).log;
      && i < j < |log| && log[i].Voted? && log[j].Voted? && log[i].voter == log[j].voter
      && log[i].term == log[j].term && log[i].candidate != log[j].candidate
    ensures var log := Exec(rule, Initial(ids), run).log;
      && log[i].candidate == log[i].voter
      && exists k :: 0 <= k < j && log[k].Elected? && log[k].term == log[j].term
  {
    InvInitial(ids);
    HistoryRun(rule, Initial(ids), run);
    var log := Exec(rule, Initial(ids), run).log;
    var e :| e in Past(log[..j]) && e.Elected? && e.term == log[j].term;
    var k :| 0 <= k < j && log[..j][k] == e;
    assert log[k] == e;
  }

  // --- Exactly when a node votes twice -----------------------------------------------------------------

  /** The log already has a vote of the same voter and term for somebody else. */
  ghost predicate Repeats(log: seq<Event>, e: Event) {
    e.Voted? && exists f :: f in log && f.Voted? && f.voter == e.voter && f.term == e.term && f.candidate != e.candidate
  }

  ghost predicate VotesTwice(s: State, a: Action)
    requires WellFormed(s) && Enabled(s, a)
  {
    |Apply(s, a).log| > |s.log| && Repeats(s.log, Apply(s, a).log[|s.log|])
  }

  /** A former candidate of the term, alive and without a vote or with one for the asker, is asked for its
      vote in that term. */
  predicate AskedAgain(s: State, a: Action)
    requires WellFormed(s) && Enabled(s, a)
  {
    && a.DeliverVote?
    && var r := s.rounds[a.round]; var n := s.nodes[a.peer];
       && !n.role.Dead? && r.term == n.term && Voted(a.peer, n.term, a.peer) in s.log
       && (n.votedFor == NOBODY || n.votedFor == r.candidate)
  }

  lemma OneEvent(s: State, a: Action)
    requires WellFormed(s) && Enabled(s, a)
    ensures var log := Apply(s, a).log; log == s.log || (|log| == |s.log| + 1 && log == s.log + [log[|s.log|]])
  {
  }

  /** Votes of a term the node has not reached are not in the log. */
  lemma NoFutureVotes(s: State, f: Event)
    requires Inv(s) && f in s.log && f.Voted?
    ensures f.voter in s.nodes && f.term <= s.nodes[f.voter].term
    ensures f.term == s.nodes[f.voter].term && f.candidate != f.voter ==> s.nodes[f.voter].votedFor == f.candidate
  {
    assert f in Past(s.log);
    assert VoteKept(s.nodes, f);
  }

  /** A step gives a node a second vote in a term exactly if it is such a request. */
  lemma SecondVoteExactly(s: State, a: Action)
    requires Inv(s) && Enabled(s, a)
    ensures VotesTwice(s, a) <==> AskedAgain(s, a)
  {
    forall f | f in s.log && f.Voted?
      ensures f.voter in s.nodes && f.term <= s.nodes[f.voter].term
      ensures f.term == s.nodes[f.voter].term && f.candidate != f.voter ==> s.nodes[f.voter].votedFor == f.candidate
    {
      NoFutureVotes(s, f);
    }
    if a.DeliverVote? {
      var p := a.peer;
      var own := Voted(p, s.nodes[p].term, p);
      assert s.rounds[a.round].candidate != p;
      assert AskedAgain(s, a) ==> own in s.log;
    }
  }

  ghost predicate TwoVotes(log: seq<Event>) {
    exists i, j :: 0 <= i < j < |log| && SameTurn(log[i], log[j])
  }

  predicate SameTurn(e: Event, f: Event) {
    e.Voted? && f.Voted? && e.voter == f.voter && e.term == f.term && e.candidate != f.candidate
  }

  lemma TwoVotesMore(log: seq<Event>, e: Event)
    ensures TwoVotes(log + [e]) <==> TwoVotes(log) || Repeats(log, e)
  {
    var more := log + [e];
    if TwoVotes(log) {
      var i, j :| 0 <= i < j < |log| && SameTurn(log[i], log[j]);
      assert SameTurn(more[i], more[j]);
    }
    if Repeats(log, e) {
      var f :| f in log && f.Voted? && f.voter == e.voter && f.term == e.term && f.candidate != e.candidate;
      var i :| 0 <= i < |log| && log[i] == f;
      assert SameTurn(more[i], more[|log|]);
    }
    if TwoVotes(more) {
      var i, j :| 0 <= i < j < |more| && SameTurn(more[i], more[j]);
      if j < |log| {
        assert SameTurn(log[i], log[j]);
      } else {
        assert log[i] in log;
      }
    }
  }

  predicate EverAskedAgain(rule: Rule, s: State, run: seq<Action>)
    requires Legal(rule, s, run)
    decreases |run|
  {
    run != [] && (AskedAgain(s, run[0]) || EverAskedAgain(rule, Apply(s, run[0]), run[1..]))
  }

  lemma {:induction false} TwoVotesRun(rule: Rule, s: State, run: seq<Action>)
    requires Inv(s) && Rejects(rule) && Legal(rule, s, run)
    ensures TwoVotes(Exec(rule, s, run).log) <==> TwoVotes(s.log) || EverAskedAgain(rule, s, run)
    decreases |run|
  {
    if run != [] {
      var s' := Apply(s, run[0]);
      InvStep(s, run[0]);
      SecondVoteExactly(s, run[0]);
      OneEvent(s, run[0]);
      if s'.log != s.log {
        TwoVotesMore(s.log, s'.log[|s.log|]);
      }
      TwoVotesRun(rule, s', run[1..]);
    }
  }

  /** Over a whole run some node votes for two candidates in one term exactly if somewhere in it a former
      candidate that has lost its vote, or given it to the asker, is asked again in its own term. */
  lemma OneVotePerTermExactly(rule: Rule, ids: set<int>, run: seq<Action>)
    requires Members(ids) && |ids| > 1 && Rejects(rule) && Legal(rule, Initial(ids), run)
    ensures TwoVotes(Exec(rule, Initial(ids), run).log) <==> EverAskedAgain(rule, Initial(ids), run)
  {
    InvInitial(ids);
    TwoVotesRun(rule, Initial(ids), run);
  }
}
