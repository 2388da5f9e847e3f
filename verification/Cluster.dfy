/** The whole election: any number of nodes, every vote request and heartbeat as a call that
    is delivered, answered and read back at most once, in any order and possibly never.
    `log` records the votes granted and the elections won, in the order they happened. */
module Cluster {
  import opened Options
  import opened Consensus

  datatype Event =
    | Voted(voter: int, term: int, candidate: int)
    | Elected(term: int, leader: int, quorum: set<int>)

  /** `Closed(true)` is a reply the candidate has counted. */
  datatype Call = Pending | Answered(reply: VoteReply) | Closed(counted: bool)

  /** One election of one candidate: the term its requests carry, the counter its reply handlers
      share, and one call per peer. */
  datatype Round = Round(candidate: int, term: int, votes: int, calls: map<int, Call>)

  datatype BeatStatus = Flying | Returned(term: int) | Over
  datatype Beat = Beat(leader: int, to: int, term: int, status: BeatStatus)

  datatype State = State(nodes: map<int, Node>, rounds: seq<Round>, beats: seq<Beat>, log: seq<Event>)

  datatype Action =
    | TimeOut(node: int)
    | DeliverVote(round: nat, peer: int)
    | ReadVote(round: nat, peer: int)
    | SendBeat(node: int, peer: int)
    | DeliverBeat(beat: nat)
    | ReadBeat(beat: nat)
    | Halt(node: int)

  function Initial(ids: set<int>): State
    requires ids != {}
  {
    State(map i | i in ids :: NewNode(|ids| - 1), [], [], [])
  }

  /** Node ids are distinct by being a set; they are port numbers, hence not negative. */
  predicate WellFormed(s: State) {
    && s.nodes.Keys != {}
    && (forall i :: i in s.nodes ==> i >= 0)
    && (forall k :: 0 <= k < |s.rounds| ==>
          s.rounds[k].candidate in s.nodes
          && s.rounds[k].calls.Keys == s.nodes.Keys - {s.rounds[k].candidate})
    && (forall b :: 0 <= b < |s.beats| ==>
          s.beats[b].leader in s.nodes && s.beats[b].to in s.nodes && s.beats[b].to != s.beats[b].leader)
  }

  predicate Enabled(s: State, a: Action) {
    match a
    case TimeOut(i) => i in s.nodes && MayTimeOut(s.nodes[i])
    case DeliverVote(k, p) => k < |s.rounds| && p in s.rounds[k].calls && s.rounds[k].calls[p].Pending?
    case ReadVote(k, p) => k < |s.rounds| && p in s.rounds[k].calls && s.rounds[k].calls[p].Answered?
    case SendBeat(i, p) => i in s.nodes && p in s.nodes && p != i && s.nodes[i].role.Leader?
    case DeliverBeat(b) => b < |s.beats| && s.beats[b].status.Flying?
    case ReadBeat(b) => b < |s.beats| && s.beats[b].status.Returned?
    case Halt(i) => i in s.nodes
  }

  function Counted(r: Round): set<int> {
    set p | p in r.calls && r.calls[p] == Closed(true)
  }

  function Backers(r: Round): set<int> {
    {r.candidate} + Counted(r)
  }

  function Open(s: State, i: int): State
    requires i in s.nodes
  {
    var n := StartElection(s.nodes[i], i);
    State(s.nodes[i := n],
          s.rounds + [Round(i, n.term, 1, map p | p in s.nodes.Keys - {i} :: Pending)],
          s.beats,
          s.log + [Voted(i, n.term, i)])
  }

  function ReceiveVote(s: State, k: nat, p: int): State
    requires WellFormed(s) && Enabled(s, DeliverVote(k, p))
  {
    var r := s.rounds[k];
    var (n, reply) := OnRequestVote(s.nodes[p], r.term, r.candidate);
    State(s.nodes[p := n],
          s.rounds[k := r.(calls := r.calls[p := if reply.Some? then Answered(reply.value) else Closed(false)])],
          s.beats,
          if reply.Some? && reply.value.granted then s.log + [Voted(p, r.term, r.candidate)] else s.log)
  }

  function CountVote(s: State, k: nat, p: int): State
    requires WellFormed(s) && Enabled(s, ReadVote(k, p))
  {
    var r := s.rounds[k];
    var c := s.nodes[r.candidate];
    var (n, votes) := OnVoteReply(c, r.term, r.votes, |s.nodes|, r.calls[p].reply);
    var r' := r.(votes := votes, calls := r.calls[p := Closed(votes != r.votes)]);
    State(s.nodes[r.candidate := n],
          s.rounds[k := r'],
          s.beats,
          if n.role.Leader? && !c.role.Leader? then s.log + [Elected(n.term, r.candidate, Backers(r'))] else s.log)
  }

  function ReceiveBeat(s: State, b: nat): State
    requires WellFormed(s) && Enabled(s, DeliverBeat(b))
  {
    var m := s.beats[b];
    var (n, reply) := OnAppendEntries(s.nodes[m.to], m.term, m.leader);
    s.(nodes := s.nodes[m.to := n],
       beats := s.beats[b := m.(status := if reply.Some? then Returned(reply.value.term) else Over)])
  }

  function ReturnBeat(s: State, b: nat): State
    requires WellFormed(s) && Enabled(s, ReadBeat(b))
  {
    var m := s.beats[b];
    s.(nodes := s.nodes[m.leader := OnBeatReply(s.nodes[m.leader], m.term, m.status.term)],
       beats := s.beats[b := m.(status := Over)])
  }

  function Apply(s: State, a: Action): State
    requires WellFormed(s) && Enabled(s, a)
  {
    match a
    case TimeOut(i) => Open(s, i)
    case DeliverVote(k, p) => ReceiveVote(s, k, p)
    case ReadVote(k, p) => CountVote(s, k, p)
    case SendBeat(i, p) => s.(beats := s.beats + [Beat(i, p, s.nodes[i].term, Flying)])
    case DeliverBeat(b) => ReceiveBeat(s, b)
    case ReadBeat(b) => ReturnBeat(s, b)
    case Halt(i) => s.(nodes := s.nodes[i := Stop(s.nodes[i])])
  }

  lemma ApplyWellFormed(s: State, a: Action)
    requires WellFormed(s) && Enabled(s, a)
    ensures WellFormed(Apply(s, a)) && Apply(s, a).nodes.Keys == s.nodes.Keys
  {
    var s' := Apply(s, a);
    assert s'.nodes.Keys == s.nodes.Keys;
  }

  datatype Kind = Vote | Heartbeat

  /** Which replies a node may act on, given the kind of reply, the node's current term, the term
      the request was sent in and the term in the reply. */
  type Rule = (Kind, int, int, int) -> bool

  /** The source has no such check. */
  const ANY_REPLY: Rule := (kind, current, saved, replied) => true

  /** A reply is acted on only in the term that issued its request. */
  const OWN_TERM: Rule := (kind, current, saved, replied) => current == saved

  /** Replies the election does not survive: those that take a node back to an earlier term, a
      heartbeat reply that clears the node's vote in its current term, and a vote of an earlier
      term that completes a majority. */
  predicate Harmful(kind: Kind, current: int, saved: int, replied: int) {
    && saved >= 1
    && match kind
       case Vote => saved < replied < current || saved == replied < current
       case Heartbeat => saved < replied <= current
  }

  predicate Permitted(rule: Rule, s: State, a: Action)
    requires WellFormed(s) && Enabled(s, a)
  {
    match a
    case ReadVote(k, p) =>
      rule(Vote, s.nodes[s.rounds[k].candidate].term, s.rounds[k].term, s.rounds[k].calls[p].reply.term)
    case ReadBeat(b) =>
      rule(Heartbeat, s.nodes[s.beats[b].leader].term, s.beats[b].term, s.beats[b].status.term)
    case _ => true
  }

  predicate Legal(rule: Rule, s: State, run: seq<Action>)
    decreases |run|
  {
    run == [] || (
      && WellFormed(s)
      && Enabled(s, run[0])
      && Permitted(rule, s, run[0])
      && Legal(rule, Apply(s, run[0]), run[1..]))
  }

  function Exec(rule: Rule, s: State, run: seq<Action>): State
    requires Legal(rule, s, run)
    decreases |run|
  {
    if run == [] then s else Exec(rule, Apply(s, run[0]), run[1..])
  }

  lemma {:induction false} Extend(rule: Rule, s: State, run: seq<Action>, a: Action)
    requires WellFormed(s) && Legal(rule, s, run)
    ensures WellFormed(Exec(rule, s, run))
    ensures Enabled(Exec(rule, s, run), a) && Permitted(rule, Exec(rule, s, run), a) ==>
      Legal(rule, s, run + [a]) && Exec(rule, s, run + [a]) == Apply(Exec(rule, s, run), a)
    decreases |run|
  {
    if run == [] {
      assert run + [a] == [a];
    } else {
      ApplyWellFormed(s, run[0]);
      Extend(rule, Apply(s, run[0]), run[1..], a);
      assert (run + [a])[1..] == run[1..] + [a];
    }
  }
}
