/** The cluster together with the control plane of one of its nodes, which takes that node's announcements
    one by one while the election goes on, and asks for the node's role only later. */
module Managers {
  import opened Options
  import opened Consensus
  import opened Cluster
  import opened StaleReplies
  import opened Leadership

  datatype Joint = Joint(cluster: State, manager: Manager)

  datatype Turn =
    | Election(action: Action)
    | TakeNext
    | Ask
    | Jam

  function Outset(ids: set<int>): Joint
    requires ids != {}
  {
    Joint(Initial(ids), FRESH_MANAGER)
  }

  /** The loop jams when it blocks itself, which is up to the nodes it monitors. */
  predicate CanTurn(rule: Rule, i: int, j: Joint, t: Turn) {
    && WellFormed(j.cluster) && i in j.cluster.nodes
    && match t
       case Election(a) => Enabled(j.cluster, a) && Permitted(rule, j.cluster, a)
       case TakeNext =>
         && !j.manager.starting && j.manager.read < |j.cluster.nodes[i].announced|
         && Takes(j.manager, j.cluster.nodes[i].announced[j.manager.read])
       case Ask => j.manager.starting
       case Jam => j.manager.stop.Some?
  }

  function AfterTurn(rule: Rule, i: int, j: Joint, t: Turn): Joint
    requires CanTurn(rule, i, j, t)
  {
    match t
    case Election(a) => j.(cluster := Apply(j.cluster, a))
    case TakeNext => j.(manager := Take(j.manager, j.cluster.nodes[i].announced[j.manager.read]))
    case Ask => j.(manager := StartLoop(j.manager, j.cluster.nodes[i].role.Leader?))
    case Jam => j.(manager := j.manager.(jammed := j.manager.jammed + {j.manager.stop.value}))
  }

  predicate LegalTurns(rule: Rule, i: int, j: Joint, turns: seq<Turn>)
    decreases |turns|
  {
    turns == [] || (CanTurn(rule, i, j, turns[0]) && LegalTurns(rule, i, AfterTurn(rule, i, j, turns[0]), turns[1..]))
  }

  function AfterTurns(rule: Rule, i: int, j: Joint, turns: seq<Turn>): Joint
    requires LegalTurns(rule, i, j, turns)
    decreases |turns|
  {
    if turns == [] then j else AfterTurns(rule, i, AfterTurn(rule, i, j, turns[0]), turns[1..])
  }

  // --- What every turn keeps -------------------------------------------------------------------------

  predicate Says(stream: seq<Announcement>, read: nat) {
    0 < read <= |stream| && stream[read - 1].isLeader
  }

  /** The manager and the node it belongs to. */
  predicate Follows(n: Node, m: Manager) {
    && Announces(n) && OneLoop(m) && m.read <= |n.announced| && (forall l :: l in m.jammed ==> l < m.started)
    && (m.starting ==> Says(n.announced, m.read) && !m.wasLeader && m.stop.None?)
    && (!m.starting ==> (m.wasLeader <==> Says(n.announced, m.read)))
    && (!m.starting ==> (m.stop.Some? <==> m.wasLeader && m.led))
    && (m.read == |n.announced| && n.role.Leader? && !m.starting ==> m.stop.Some?)
  }

  ghost predicate JointOk(i: int, j: Joint) {
    && WellFormed(j.cluster) && i in j.cluster.nodes
    && (forall k :: k in j.cluster.nodes ==> Announces(j.cluster.nodes[k]))
    && Follows(j.cluster.nodes[i], j.manager)
  }

  /** Announcements are only added, and a node comes to lead only by announcing it. */
  predicate Goes(n: Node, n': Node) {
    n.announced <= n'.announced && (n'.role.Leader? && !n.role.Leader? ==> n.announced < n'.announced)
  }

  lemma ElectionGoes(s: State, a: Action, i: int)
    requires WellFormed(s) && Enabled(s, a) && i in s.nodes
    ensures i in Apply(s, a).nodes && Goes(s.nodes[i], Apply(s, a).nodes[i])
  {
  }

  lemma FollowsOn(n: Node, n': Node, m: Manager)
    requires Follows(n, m) && Announces(n') && Goes(n, n')
    ensures Follows(n', m)
  {
  }

  lemma TakeFollows(n: Node, m: Manager)
    requires Follows(n, m) && !m.starting && m.read < |n.announced|
    ensures Follows(n, Take(m, n.announced[m.read]))
  {
    assert m.read > 0 ==> !(n.announced[m.read - 1].isLeader && n.announced[m.read].isLeader);
  }

  lemma TurnKeeps(rule: Rule, i: int, j: Joint, t: Turn)
    requires JointOk(i, j) && CanTurn(rule, i, j, t)
    ensures JointOk(i, AfterTurn(rule, i, j, t))
  {
    match t
    case Election(a) =>
      ApplyWellFormed(j.cluster, a);
      AnnouncesStep(j.cluster, a);
      ElectionGoes(j.cluster, a, i);
      FollowsOn(j.cluster.nodes[i], Apply(j.cluster, a).nodes[i], j.manager);
    case TakeNext => TakeFollows(j.cluster.nodes[i], j.manager);
    case Ask =>
    case Jam =>
  }

  lemma {:induction false} TurnsKeep(rule: Rule, i: int, j: Joint, turns: seq<Turn>)
    requires JointOk(i, j) && LegalTurns(rule, i, j, turns)
    ensures JointOk(i, AfterTurns(rule, i, j, turns))
    decreases |turns|
  {
    if turns != [] {
      TurnKeeps(rule, i, j, turns[0]);
      TurnsKeep(rule, i, AfterTurn(rule, i, j, turns[0]), turns[1..]);
    }
  }

  lemma OutsetOk(ids: set<int>, i: int)
    requires i in ids && forall k :: k in ids ==> k >= 0
    ensures JointOk(i, Outset(ids))
  {
    assert Initial(ids).nodes.Keys == ids;
  }

  /** In every interleaving of the election with the control plane of a node, stale replies acted on:
      leadership is never announced twice in a row; between announcements the control plane leads exactly
      if the last one it took says so; at most one monitoring loop is live, and one is exactly if the
      control plane leads and the node led when it was asked; and if the node leads and all its
      announcements have been processed, a loop is live. */
  lemma ManagersFollow(rule: Rule, ids: set<int>, i: int, turns: seq<Turn>)
    requires i in ids && (forall k :: k in ids ==> k >= 0) && LegalTurns(rule, i, Outset(ids), turns)
    ensures var j := AfterTurns(rule, i, Outset(ids), turns); var m := j.manager;
      && i in j.cluster.nodes && NoRepeatedLead(j.cluster.nodes[i].announced)
      && OneLoop(m) && |m.live| <= 1
      && (!m.starting ==>
            && (m.wasLeader <==> Says(j.cluster.nodes[i].announced, m.read))
            && (m.live != {} <==> m.wasLeader && m.led)
            && (m.read == |j.cluster.nodes[i].announced| && j.cluster.nodes[i].role.Leader? ==> m.live != {}))
  {
    OutsetOk(ids, i);
    TurnsKeep(rule, i, Outset(ids), turns);
  }

  // --- A loop that jams ------------------------------------------------------------------------------

  lemma {:induction false} JammedForever(rule: Rule, i: int, j: Joint, turns: seq<Turn>)
    requires !j.manager.starting && j.manager.wasLeader && StopBlocks(j.manager) && LegalTurns(rule, i, j, turns)
    ensures var m := AfterTurns(rule, i, j, turns).manager; m == j.manager.(jammed := m.jammed) && StopBlocks(m)
    decreases |turns|
  {
    if turns != [] {
      JammedForever(rule, i, AfterTurn(rule, i, j, turns[0]), turns[1..]);
    }
  }

  ghost predicate WillTake(rule: Rule, i: int, j: Joint) {
    exists turns :: TakesAfter(rule, i, j, turns)
  }

  predicate TakesAfter(rule: Rule, i: int, j: Joint, turns: seq<Turn>) {
    LegalTurns(rule, i, j, turns) && AfterTurns(rule, i, j, turns).manager.read > j.manager.read
  }

  /** A control plane with an announcement waiting takes it in some continuation exactly unless its
      monitoring loop has jammed; then it goes on as leader for ever, whatever is announced. */
  lemma TakesUnlessJammed(rule: Rule, i: int, j: Joint)
    requires JointOk(i, j) && j.manager.read < |j.cluster.nodes[i].announced|
    ensures WillTake(rule, i, j) <==> !StopBlocks(j.manager)
  {
    if StopBlocks(j.manager) {
      forall turns | LegalTurns(rule, i, j, turns) ensures !TakesAfter(rule, i, j, turns) {
        JammedForever(rule, i, j, turns);
      }
    } else if j.manager.starting {
      AskedTakes(rule, i, j);
    } else {
      assert [TakeNext][1..] == [];
      assert TakesAfter(rule, i, j, [TakeNext]);
    }
  }

  lemma AskedTakes(rule: Rule, i: int, j: Joint)
    requires JointOk(i, j) && j.manager.read < |j.cluster.nodes[i].announced| && j.manager.starting
    requires !StopBlocks(AfterTurn(rule, i, j, Ask).manager)
    ensures WillTake(rule, i, j)
  {
    assert [Ask, TakeNext][1..] == [TakeNext] && [TakeNext][1..] == [];
    assert TakesAfter(rule, i, j, [Ask, TakeNext]);
  }

  // --- A control plane that leads without a loop -------------------------------------------------------

  lemma {:induction false} Lift(rule: Rule, i: int, s: State, run: seq<Action>, m: Manager) returns (turns: seq<Turn>)
    requires WellFormed(s) && i in s.nodes && Legal(rule, s, run)
    ensures LegalTurns(rule, i, Joint(s, m), turns)
    ensures AfterTurns(rule, i, Joint(s, m), turns) == Joint(Exec(rule, s, run), m)
    decreases |run|
  {
    if run == [] {
      turns := [];
    } else {
      ApplyWellFormed(s, run[0]);
      var rest := Lift(rule, i, Apply(s, run[0]), run[1..], m);
      turns := [Election(run[0])] + rest;
      assert turns[1..] == rest;
    }
  }

  lemma {:induction false} ThenTurn(rule: Rule, i: int, j: Joint, turns: seq<Turn>, t: Turn)
    requires LegalTurns(rule, i, j, turns) && CanTurn(rule, i, AfterTurns(rule, i, j, turns), t)
    ensures LegalTurns(rule, i, j, turns + [t])
    ensures AfterTurns(rule, i, j, turns + [t]) == AfterTurn(rule, i, AfterTurns(rule, i, j, turns), t)
    decreases |turns|
  {
    if turns == [] {
      assert ([t])[1..] == [];
    } else {
      ThenTurn(rule, i, AfterTurn(rule, i, j, turns[0]), turns[1..], t);
      assert (turns + [t])[1..] == turns[1..] + [t];
    }
  }

  lemma FirstLeads(rule: Rule) returns (s: State)
    requires Tolerant(rule)
    ensures At(rule, s) && s.nodes[0].role.Leader? && s.nodes[0].term == 1
    ensures s.nodes[0].announced == [Announcement(true, 1)]
    ensures s.nodes[2].role == Follower && s.nodes[2].term == 0
  {
    Start(rule);
    var k;
    s, k := Climb(rule, Initial(THREE), 0, 1);
    assert s.nodes[0].announced == [];
    s := Grant(rule, s, k, 1);
    s := Win(rule, s, k, 1);
  }

  /** Node 0 has won term 1 and lost it to a request of term 2, and nothing has been processed yet. */
  lemma LostMeanwhile(rule: Rule) returns (s: State)
    requires Tolerant(rule)
    ensures At(rule, s) && s.nodes[0].role.Follower?
    ensures s.nodes[0].announced == [Announcement(true, 1), Announcement(false, 1)]
  {
    s := FirstLeads(rule);
    var k;
    s, k := Climb(rule, s, 2, 2);
    s := Grant(rule, s, k, 0);
  }

  /** The first announcement is processed only then: the control plane leads, and no loop is live. */
  lemma LeadsWithoutLoop(rule: Rule) returns (turns: seq<Turn>)
    requires Tolerant(rule)
    ensures LegalTurns(rule, 0, Outset(THREE), turns)
    ensures var m := AfterTurns(rule, 0, Outset(THREE), turns).manager; m.wasLeader && m.stop.None? && m.live == {}
  {
    var s := LostMeanwhile(rule);
    Start(rule);
    var run :| Legal(rule, Initial(THREE), run) && Exec(rule, Initial(THREE), run) == s;
    turns := Lift(rule, 0, Initial(THREE), run, FRESH_MANAGER);
    ThenTurn(rule, 0, Outset(THREE), turns, TakeNext);
    turns := turns + [TakeNext];
    ThenTurn(rule, 0, Outset(THREE), turns, Ask);
    turns := turns + [Ask];
  }
}
