/** One node of the leader election: the state guarded by the node's mutex, and each
    critical section of the source as a function from node state to node state.
    The class below performs the same critical sections in place. */
module Consensus {
  import opened Options
  import opened Basics

  datatype Role = Follower | Candidate | Leader | Dead

  /** What a node tells the process that hosts it. */
  datatype Announcement = Announcement(isLeader: bool, term: int)

  datatype VoteReply = VoteReply(term: int, granted: bool)
  datatype BeatReply = BeatReply(term: int, success: bool)

  /** `votedFor` holds NOBODY when no vote was given. */
  const NOBODY: int := -1

  datatype Node = Node(
    role: Role, term: int, votedFor: int, leaderId: int, announced: seq<Announcement>)

  /** A node without peers declares itself leader at once. */
  function NewNode(peers: nat): Node {
    if peers == 0 then Node(Leader, 0, NOBODY, 0, [Announcement(true, 0)])
    else Node(Follower, 0, NOBODY, 0, [])
  }

  /** Clears the vote even when `term` is the node's own term. */
  function BecomeFollower(n: Node, term: int): Node {
    n.(role := Follower, term := term, votedFor := NOBODY,
       announced := n.announced + [Announcement(false, n.term)])
  }

  function StartLeader(n: Node): Node {
    n.(role := Leader, announced := n.announced + [Announcement(true, n.term)])
  }

  function StartElection(n: Node, id: int): Node {
    n.(role := Candidate, term := n.term + 1, votedFor := id)
  }

  function Stop(n: Node): Node {
    n.(role := Dead)
  }

  function OnRequestVote(n: Node, term: int, candidate: int): (Node, Option<VoteReply>) {
    if n.role.Dead? then (n, None)
    else
      var m := if term > n.term then BecomeFollower(n, term) else n;
      if m.term == term && (m.votedFor == NOBODY || m.votedFor == candidate)
      then (m.(votedFor := candidate), Some(VoteReply(m.term, true)))
      else (m, Some(VoteReply(m.term, false)))
  }

  /** The sender is recorded as leader before its term is looked at. */
  function OnAppendEntries(n: Node, term: int, leader: int): (Node, Option<BeatReply>) {
    if n.role.Dead? then (n, None)
    else
      var m := (if term > n.term then BecomeFollower(n, term) else n).(leaderId := leader);
      if m.term == term
      then (if m.role.Follower? then m else BecomeFollower(m, term), Some(BeatReply(m.term, true)))
      else (m, Some(BeatReply(m.term, false)))
  }

  /** The candidate's side of one vote reply. `saved` is the term the request was sent in and
      `votes` the counter shared by the replies of that election; neither is compared with the
      node's current term. */
  function OnVoteReply(n: Node, saved: int, votes: int, size: int, reply: VoteReply): (Node, int) {
    if !n.role.Candidate? then (n, votes)
    else if reply.term > saved then (BecomeFollower(n, reply.term), votes)
    else if reply.term == saved && reply.granted then
      (if (votes + 1) * 2 > size then StartLeader(n) else n, votes + 1)
    else (n, votes)
  }

  /** The leader's side of one heartbeat reply: no check of role or current term. */
  function OnBeatReply(n: Node, saved: int, replyTerm: int): Node {
    if replyTerm > saved then BecomeFollower(n, replyTerm) else n
  }

  /** The election timer may start an election only in these roles. */
  predicate MayTimeOut(n: Node) {
    n.role.Candidate? || n.role.Follower?
  }

  /** The counter captured by the reply handlers of one election. */
  class Ballot {
    const savedTerm: int
    var votesReceived: int

    constructor (savedTerm: int)
      ensures this.savedTerm == savedTerm && votesReceived == 1
    {
      this.savedTerm := savedTerm;
      votesReceived := 1;
    }
  }

  datatype VoteRequest = VoteRequest(to: int, term: int, candidate: int)

  class ConsensusModule {
    const id: int
    const peerIds: seq<int>
    var state: Role
    var currentTerm: int
    var votedFor: int
    var currentLeaderID: int
    var announceLeadership: seq<Announcement>

    function View(): Node
      reads this
    {
      Node(state, currentTerm, votedFor, currentLeaderID, announceLeadership)
    }

    constructor (id: int, peerIds: seq<int>)
      ensures this.id == id && this.peerIds == peerIds
      ensures View() == NewNode(|peerIds|)
    {
      this.id := id;
      this.peerIds := peerIds;
      state, currentTerm, votedFor, currentLeaderID := Follower, 0, NOBODY, 0;
      announceLeadership := [];
      if |peerIds| == 0 {
        announceLeadership := [Announcement(true, 0)];
        state := Leader;
      }
    }

    method Halt()
      modifies this
      ensures View() == Stop(old(View()))
      ensures state == Dead && currentTerm == old(currentTerm) && votedFor == old(votedFor)
      ensures currentLeaderID == old(currentLeaderID) && announceLeadership == old(announceLeadership)
    {
      state := Dead;
    }

    method StepDown(term: int)
      modifies this
      ensures View() == BecomeFollower(old(View()), term)
      ensures state == Follower && currentTerm == term && votedFor == NOBODY && currentLeaderID == old(currentLeaderID)
      ensures announceLeadership == old(announceLeadership) + [Announcement(false, old(currentTerm))]
    {
      announceLeadership := announceLeadership + [Announcement(false, currentTerm)];
      state := Follower;
      currentTerm := term;
      votedFor := NOBODY;
    }

    method Lead()
      modifies this
      ensures View() == StartLeader(old(View()))
      ensures state == Leader && currentTerm == old(currentTerm) && votedFor == old(votedFor)
      ensures announceLeadership == old(announceLeadership) + [Announcement(true, currentTerm)]
    {
      state := Leader;
      announceLeadership := announceLeadership + [Announcement(true, currentTerm)];
    }

    /** Learns a later term in any case, and grants the vote of its own term once. */
    method RequestVote(term: int, candidate: int) returns (reply: Option<VoteReply>)
      modifies this
      ensures (View(), reply) == OnRequestVote(old(View()), term, candidate)
      ensures old(state) == Dead ==> reply == None && View() == old(View())
      ensures old(state) != Dead ==> reply.Some? && reply.value.term == currentTerm == Max(term, old(currentTerm))
      ensures old(state) != Dead && term > old(currentTerm) ==>
        reply.value.granted && state == Follower && votedFor == candidate
      ensures old(state) != Dead && term <= old(currentTerm) ==>
        && state == old(state) && announceLeadership == old(announceLeadership)
        && (reply.value.granted <==> term == old(currentTerm) && old(votedFor) in {NOBODY, candidate})
        && votedFor == if reply.value.granted then candidate else old(votedFor)
      ensures currentLeaderID == old(currentLeaderID)
    {
      if state == Dead {
        return None;
      }
      if term > currentTerm {
        StepDown(term);
      }
      var granted := false;
      if currentTerm == term && (votedFor == NOBODY || votedFor == candidate) {
        granted := true;
        votedFor := candidate;
      }
      reply := Some(VoteReply(currentTerm, granted));
    }

    /** Follows a heartbeat of its own or a later term, and leaves role, term and vote alone otherwise. */
    method AppendEntries(term: int, leader: int) returns (reply: Option<BeatReply>)
      modifies this
      ensures (View(), reply) == OnAppendEntries(old(View()), term, leader)
      ensures old(state) == Dead ==> reply == None && View() == old(View())
      ensures old(state) != Dead ==> currentLeaderID == leader
      ensures old(state) != Dead && term >= old(currentTerm) ==>
        && state == Follower && currentTerm == term && reply == Some(BeatReply(term, true))
        && votedFor == if term == old(currentTerm) && old(state) == Follower then old(votedFor) else NOBODY
      ensures old(state) != Dead && term < old(currentTerm) ==>
        && state == old(state) && currentTerm == old(currentTerm) && votedFor == old(votedFor)
        && reply == Some(BeatReply(currentTerm, false)) && announceLeadership == old(announceLeadership)
    {
      if state == Dead {
        return None;
      }
      if term > currentTerm {
        StepDown(term);
      }
      currentLeaderID := leader;
      var success := false;
      if term == currentTerm {
        if state != Follower {
          StepDown(term);
        }
        success := true;
      }
      reply := Some(BeatReply(currentTerm, success));
    }

    /** One tick of the election timer after its duration has elapsed. */
    method TimeOut() returns (ballot: Option<Ballot>, requests: seq<VoteRequest>)
      modifies this
      ensures MayTimeOut(old(View())) <==> ballot.Some?
      ensures View() == if ballot.Some? then StartElection(old(View()), id) else old(View())
      ensures ballot.Some? <==> old(state) in {Follower, Candidate}
      ensures ballot.Some? ==> state == Candidate && currentTerm == old(currentTerm) + 1 && votedFor == id
      ensures ballot.Some? ==> fresh(ballot.value)
      ensures ballot.Some? ==> ballot.value.savedTerm == currentTerm && ballot.value.votesReceived == 1
      ensures |requests| == if ballot.Some? then |peerIds| else 0
      ensures forall i :: 0 <= i < |requests| ==> requests[i] == VoteRequest(peerIds[i], currentTerm, id)
    {
      requests := [];
      if state != Candidate && state != Follower {
        return None, requests;
      }
      state := Candidate;
      currentTerm := currentTerm + 1;
      votedFor := id;
      var round := new Ballot(currentTerm);
      for k := 0 to |peerIds|
        invariant |requests| == k
        invariant forall i :: 0 <= i < k ==> requests[i] == VoteRequest(peerIds[i], currentTerm, id)
      {
        requests := requests + [VoteRequest(peerIds[k], currentTerm, id)];
      }
      ballot := Some(round);
    }

    method HandleVoteReply(ballot: Ballot, reply: VoteReply)
      modifies this, ballot
      ensures (View(), ballot.votesReceived) ==
        OnVoteReply(old(View()), ballot.savedTerm, old(ballot.votesReceived), |peerIds| + 1, reply)
      ensures var counted := old(state) == Candidate && reply == VoteReply(ballot.savedTerm, true);
        && ballot.votesReceived == old(ballot.votesReceived) + (if counted then 1 else 0)
        && (state == Leader && old(state) != Leader <==> counted && ballot.votesReceived * 2 > |peerIds| + 1)
      ensures old(state) == Candidate && reply.term > ballot.savedTerm ==>
        state == Follower && currentTerm == reply.term && votedFor == NOBODY
      ensures reply.term <= ballot.savedTerm || old(state) != Candidate ==>
        currentTerm == old(currentTerm) && votedFor == old(votedFor) && (state == old(state) || state == Leader)
    {
      if state != Candidate {
        return;
      }
      if reply.term > ballot.savedTerm {
        StepDown(reply.term);
      } else if reply.term == ballot.savedTerm {
        if reply.granted {
          ballot.votesReceived := ballot.votesReceived + 1;
          if ballot.votesReceived * 2 > |peerIds| + 1 {
            Lead();
          }
        }
      }
    }

    method HandleBeatReply(savedTerm: int, replyTerm: int)
      modifies this
      ensures View() == OnBeatReply(old(View()), savedTerm, replyTerm)
      ensures replyTerm > savedTerm ==> state == Follower && currentTerm == replyTerm && votedFor == NOBODY
      ensures replyTerm <= savedTerm ==> View() == old(View())
    {
      if replyTerm > savedTerm {
        StepDown(replyTerm);
      }
    }
  }
}
