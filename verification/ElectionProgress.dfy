/** What the election can still do: from any state in which a majority is alive, any follower or candidate
    among it can come to lead a new term that every living node follows. */
module ElectionProgress {
  import opened Basics
  import opened Options
  import opened Consensus
  import opened Cluster
  import opened StaleReplies

  ghost predicate Reaches(rule: Rule, s: State, t: State) {
    exists run :: Leads(rule, s, run, t)
  }

  predicate Leads(rule: Rule, s: State, run: seq<Action>, t: State) {
    Legal(rule, s, run) && Exec(rule, s, run) == t
  }

  lemma Stay(rule: Rule, s: State)
    ensures Reaches(rule, s, s)
  {
    assert Leads(rule, s, [], s);
  }

  lemma Then(rule: Rule, s: State, t: State, a: Action)
    requires WellFormed(s) && Reaches(rule, s, t) && WellFormed(t) && Enabled(t, a) && Permitted(rule, t, a)
    ensures Reaches(rule, s, Apply(t, a)) && WellFormed(Apply(t, a)) && Apply(t, a).nodes.Keys == t.nodes.Keys
  {
    var run :| Leads(rule, s, run, t);
    Extend(rule, s, run, a);
    assert Leads(rule, s, run + [a], Apply(t, a));
    ApplyWellFormed(t, a);
  }

  // --- Heartbeats --------------------------------------------------------------------------------------

  /** A living node that receives a heartbeat reaches at least its term and leads no term up to it; it
      follows the sender if it has not been in a later term. The reply reports the term it is then in. */
  lemma BeatTeaches(s: State, b: nat)
    requires WellFormed(s) && Enabled(s, DeliverBeat(b)) && !s.nodes[s.beats[b].to].role.Dead?
    ensures var m := s.beats[b]; var before := s.nodes[m.to]; var after := Apply(s, DeliverBeat(b)).nodes[m.to];
      && after.term == Max(before.term, m.term) && after.leaderId == m.leader
      && (m.term >= before.term ==> after.role == Follower)
      && (m.term < before.term ==> after == before.(leaderId := m.leader))
      && Apply(s, DeliverBeat(b)).beats[b] == m.(status := Returned(after.term))
  {
  }

  /** What a heartbeat reply does to the leader: nothing, unless it reports a later term. */
  lemma BeatReplyTeaches(s: State, b: nat)
    requires WellFormed(s) && Enabled(s, ReadBeat(b))
    ensures var m := s.beats[b]; var before := s.nodes[m.leader]; var after := Apply(s, ReadBeat(b)).nodes[m.leader];
      if m.status.term > m.term then after.role == Follower && after.term == m.status.term && after.votedFor == NOBODY
      else after == before
  {
  }

  /** A living node that is asked for its vote reaches at least the term of the request. */
  lemma RequestTeaches(s: State, k: nat, p: int)
    requires WellFormed(s) && Enabled(s, DeliverVote(k, p)) && !s.nodes[p].role.Dead?
    ensures var r := s.rounds[k]; var before := s.nodes[p]; var s' := Apply(s, DeliverVote(k, p));
      && s'.nodes[p].term == Max(before.term, r.term)
      && s'.rounds[k].calls[p].Answered? && s'.rounds[k].calls[p].reply.term == s'.nodes[p].term
      && (r.term > before.term ==> s'.nodes[p].role == Follower && s'.nodes[p].votedFor == r.candidate)
      && (s'.rounds[k].calls[p].reply.granted <==>
            r.term > before.term || (r.term == before.term && before.votedFor in {NOBODY, r.candidate}))
  {
  }

  /** A candidate that reads a reply in the term it asked in becomes leader exactly if the reply is a vote
      that completes a majority of all nodes. */
  lemma MajorityElects(s: State, k: nat, p: int)
    requires WellFormed(s) && Enabled(s, ReadVote(k, p))
    ensures var r := s.rounds[k]; var before := s.nodes[r.candidate]; var s' := Apply(s, ReadVote(k, p));
      && (before.role != Leader ==>
            (s'.nodes[r.candidate].role == Leader <==>
               && before.role == Candidate && r.calls[p].reply == VoteReply(r.term, true)
               && 2 * (r.votes + 1) > |s.nodes.Keys|))
      && s'.rounds[k].votes == r.votes + One(before.role == Candidate && r.calls[p].reply == VoteReply(r.term, true))
  {
    assert |s.nodes| == |s.nodes.Keys|;
  }

  // --- A campaign --------------------------------------------------------------------------------------

  /** Election `k` of node `i` in term `t`: those in `got` have voted for it and been counted, those in
      `todo` are alive, behind and not yet asked. */
  ghost predicate Campaign(s: State, k: nat, i: int, t: int, got: set<int>, todo: set<int>) {
    && WellFormed(s) && i in s.nodes && k < |s.rounds| && s.rounds[k].candidate == i && s.rounds[k].term == t >= 1
    && s.nodes[i].term == t
    && (s.nodes[i].role == Leader
        || (s.nodes[i].role == Candidate && s.rounds[k].votes == 1 + |got| && 2 * s.rounds[k].votes <= |s.nodes.Keys|))
    && (forall p :: p in got ==> p in s.nodes && Voter(s.nodes[p], t, i))
    && (forall p :: p in todo ==> Unasked(s, k, p, t))
    && i !in got && i !in todo && got !! todo
    && (forall p :: p in s.nodes ==> s.nodes[p].term <= t)
  }

  predicate Voter(n: Node, t: int, i: int) {
    n.role == Follower && n.term == t && n.votedFor == i
  }

  predicate Unasked(s: State, k: nat, p: int, t: int)
    requires k < |s.rounds|
  {
    && p in s.nodes && p in s.rounds[k].calls && s.rounds[k].calls[p] == Pending
    && !s.nodes[p].role.Dead? && s.nodes[p].term < t
  }

  /** Node `i` times out until it is a candidate of term `t`; its last election is wide open. */
  lemma {:induction false} Run(rule: Rule, s0: State, s: State, i: int, t: int) returns (s': State, k: nat)
    requires WellFormed(s0) && Reaches(rule, s0, s) && WellFormed(s)
    requires i in s.nodes && MayTimeOut(s.nodes[i]) && s.nodes[i].term < t
    ensures Reaches(rule, s0, s') && WellFormed(s') && s'.nodes.Keys == s.nodes.Keys
    ensures k < |s'.rounds| && s'.rounds[k].candidate == i && s'.rounds[k].term == t && s'.rounds[k].votes == 1
    ensures s'.nodes[i].role == Candidate && s'.nodes[i].term == t
    ensures forall p :: p in s.nodes && p != i ==> s'.nodes[p] == s.nodes[p] && p in s'.rounds[k].calls
    ensures forall p :: p in s'.rounds[k].calls ==> s'.rounds[k].calls[p] == Pending
    decreases t - s.nodes[i].term
  {
    Then(rule, s0, s, TimeOut(i));
    var m := Open(s, i);
    if m.nodes[i].term == t {
      s', k := m, |s.rounds|;
    } else {
      s', k := Run(rule, s0, m, i, t);
    }
  }

  /** One more living node is asked and its answer read. */
  lemma AskOne(rule: Rule, s0: State, s: State, k: nat, i: int, t: int, got: set<int>, todo: set<int>, p: int)
    returns (s': State)
    requires WellFormed(s0) && Reaches(rule, s0, s) && Tolerant(rule)
    requires Campaign(s, k, i, t, got, todo) && p in todo
    ensures Reaches(rule, s0, s') && Campaign(s', k, i, t, got + {p}, todo - {p})
    ensures s'.nodes.Keys == s.nodes.Keys
    ensures forall q :: q in s.nodes ==> (s'.nodes[q].role.Dead? <==> s.nodes[q].role.Dead?)
  {
    assert Unasked(s, k, p, t);
    Then(rule, s0, s, DeliverVote(k, p));
    var m := ReceiveVote(s, k, p);
    Asked(s, k, i, t, got, todo, p);
    Then(rule, s0, m, ReadVote(k, p));
    s' := CountVote(m, k, p);
    Heard(m, k, i, t, got, todo, p);
  }

  ghost predicate Between(s: State, k: nat, i: int, t: int, got: set<int>, todo: set<int>, p: int) {
    && Campaign(s, k, i, t, got, todo - {p}) && p !in got && p != i && p in s.nodes && Voter(s.nodes[p], t, i)
    && p in s.rounds[k].calls && s.rounds[k].calls[p] == Call.Answered(VoteReply(t, true))
  }

  lemma Asked(s: State, k: nat, i: int, t: int, got: set<int>, todo: set<int>, p: int)
    requires Campaign(s, k, i, t, got, todo) && p in todo
    ensures Enabled(s, DeliverVote(k, p)) && Between(ReceiveVote(s, k, p), k, i, t, got, todo, p)
    ensures forall q :: q in s.nodes ==> (ReceiveVote(s, k, p).nodes[q].role.Dead? <==> s.nodes[q].role.Dead?)
  {
    assert Unasked(s, k, p, t);
    var s' := ReceiveVote(s, k, p);
    ApplyWellFormed(s, DeliverVote(k, p));
    forall q | q in todo - {p} ensures Unasked(s', k, q, t) {
      assert Unasked(s, k, q, t);
    }
  }

  lemma Heard(s: State, k: nat, i: int, t: int, got: set<int>, todo: set<int>, p: int)
    requires Between(s, k, i, t, got, todo, p)
    ensures Enabled(s, ReadVote(k, p)) && Campaign(CountVote(s, k, p), k, i, t, got + {p}, todo - {p})
    ensures forall q :: q in s.nodes ==> (CountVote(s, k, p).nodes[q].role.Dead? <==> s.nodes[q].role.Dead?)
  {
    var s' := CountVote(s, k, p);
    ApplyWellFormed(s, ReadVote(k, p));
    assert |s.nodes| == |s.nodes.Keys|;
    forall q | q in todo - {p} ensures Unasked(s', k, q, t) {
      assert Unasked(s, k, q, t);
    }
  }

  lemma {:induction false} AskAll(rule: Rule, s0: State, s: State, k: nat, i: int, t: int,
                                  got: set<int>, todo: set<int>)
    returns (s': State)
    requires WellFormed(s0) && Reaches(rule, s0, s) && Tolerant(rule) && Campaign(s, k, i, t, got, todo)
    ensures Reaches(rule, s0, s') && Campaign(s', k, i, t, got + todo, {})
    ensures s'.nodes.Keys == s.nodes.Keys
    ensures forall q :: q in s.nodes ==> (s'.nodes[q].role.Dead? <==> s.nodes[q].role.Dead?)
    decreases |todo|
  {
    if todo == {} {
      s' := s;
      assert got + todo == got;
    } else {
      var p := Member(todo);
      var m := AskOne(rule, s0, s, k, i, t, got, todo, p);
      s' := AskAll(rule, s0, m, k, i, t, got + {p}, todo - {p});
      assert got + {p} + (todo - {p}) == got + todo;
    }
  }

  lemma {:induction false} TermAbove(nodes: map<int, Node>, some: set<int>) returns (t: int)
    requires some <= nodes.Keys
    ensures t >= 1 && forall p :: p in some ==> nodes[p].term < t
    decreases |some|
  {
    if some == {} {
      t := 1;
    } else {
      var p := Member(some);
      t := TermAbove(nodes, some - {p});
      t := Max(t, nodes[p].term + 1);
    }
  }

  // --- Spreading the word ------------------------------------------------------------------------------

  predicate Follows(n: Node, t: int, i: int) {
    n.role == Follower && n.term == t && n.leaderId == i
  }

  ghost predicate Led(s: State, i: int, t: int, told: set<int>) {
    && WellFormed(s) && i in s.nodes && s.nodes[i].role == Leader && s.nodes[i].term == t && i !in told
    && (forall p :: p in told ==> p in s.nodes && Follows(s.nodes[p], t, i))
    && (forall p :: p in s.nodes ==> s.nodes[p].term <= t)
  }

  lemma TellOne(rule: Rule, s0: State, s: State, i: int, t: int, told: set<int>, p: int) returns (s': State)
    requires WellFormed(s0) && Reaches(rule, s0, s) && Led(s, i, t, told)
    requires p in s.nodes && p != i && p !in told && !s.nodes[p].role.Dead?
    ensures Reaches(rule, s0, s') && Led(s', i, t, told + {p}) && s'.nodes.Keys == s.nodes.Keys
    ensures forall q :: q in s.nodes && q != p ==> s'.nodes[q] == s.nodes[q]
  {
    Then(rule, s0, s, SendBeat(i, p));
    var m := Apply(s, SendBeat(i, p));
    var b := |s.beats|;
    assert m.beats[b] == Beat(i, p, t, Flying);
    Then(rule, s0, m, DeliverBeat(b));
    BeatTeaches(m, b);
    s' := Apply(m, DeliverBeat(b));
  }

  lemma {:induction false} TellAll(rule: Rule, s0: State, s: State, i: int, t: int, told: set<int>, todo: set<int>)
    returns (s': State)
    requires WellFormed(s0) && Reaches(rule, s0, s) && Led(s, i, t, told) && i !in todo && told !! todo
    requires forall p :: p in todo ==> p in s.nodes && !s.nodes[p].role.Dead?
    ensures Reaches(rule, s0, s') && Led(s', i, t, told + todo) && s'.nodes.Keys == s.nodes.Keys
    ensures forall q :: q in s.nodes && q !in todo ==> s'.nodes[q] == s.nodes[q]
    decreases |todo|
  {
    if todo == {} {
      s' := s;
      assert told + todo == told;
    } else {
      var p := Member(todo);
      var m := TellOne(rule, s0, s, i, t, told, p);
      s' := TellAll(rule, s0, m, i, t, told + {p}, todo - {p});
      assert told + {p} + (todo - {p}) == told + todo;
    }
  }

  function Living(s: State): set<int> {
    set p | p in s.nodes && !s.nodes[p].role.Dead?
  }

  /** Node `i` leads a term above all terms of `s`, and every node that was alive in `s` follows it. */
  ghost predicate Settled(s: State, s': State, i: int) {
    && s'.nodes.Keys == s.nodes.Keys && i in s'.nodes && s'.nodes[i].role == Leader
    && (forall p :: p in s.nodes ==> s.nodes[p].term < s'.nodes[i].term)
    && (forall p :: p in Living(s) && p != i ==> Follows(s'.nodes[p], s'.nodes[i].term, i))
  }

  lemma OpenCampaign(rule: Rule, s: State, i: int, t: int) returns (s': State, k: nat)
    requires WellFormed(s) && i in s.nodes && MayTimeOut(s.nodes[i]) && |s.nodes.Keys| > 1 && t >= 1
    requires forall p :: p in s.nodes ==> s.nodes[p].term < t
    ensures Reaches(rule, s, s') && Campaign(s', k, i, t, {}, Living(s) - {i}) && s'.nodes.Keys == s.nodes.Keys
    ensures forall q :: q in s.nodes ==> (s'.nodes[q].role.Dead? <==> s.nodes[q].role.Dead?)
  {
    Stay(rule, s);
    s', k := Run(rule, s, s, i, t);
    forall p | p in Living(s) - {i} ensures Unasked(s', k, p, t) {
    }
  }

  lemma Winner(s: State, k: nat, i: int, t: int, got: set<int>)
    requires Campaign(s, k, i, t, got, {}) && 2 * (1 + |got|) > |s.nodes.Keys|
    ensures Led(s, i, t, {})
  {
  }

  /** From any state of any cluster of two or more nodes with a living majority, and for any follower or
      candidate in it, some continuation makes it leader of a new term with every living node following. */
  lemma ClusterCanSettle(rule: Rule, s: State, i: int) returns (s': State)
    requires WellFormed(s) && Tolerant(rule) && |s.nodes.Keys| > 1
    requires i in s.nodes && MayTimeOut(s.nodes[i]) && 2 * |Living(s)| > |s.nodes.Keys|
    ensures Reaches(rule, s, s') && Settled(s, s', i)
  {
    var t := TermAbove(s.nodes, s.nodes.Keys);
    var others := Living(s) - {i};
    var s1, k := OpenCampaign(rule, s, i, t);
    var s2 := AskAll(rule, s, s1, k, i, t, {}, others);
    assert {} + others == others && Living(s) == others + {i};
    Winner(s2, k, i, t, others);
    s' := TellAll(rule, s, s2, i, t, {}, others);
  }
}
