/**
 * The whole cluster: every node's state, what its main loop is doing, and every message ever
 * sent.  Messages are never taken out, so loss, delay, reordering and repetition are all runs.
 *
 * Two places of the source are not atomic and are two actions each here:
 *   `Raise` / `Persist`   the lock is dropped between choosing a term and writing it to disk;
 *   `BeatCheck` / `SendBeat`   the role is read before the term a heartbeat carries.
 * Election safety holds for every run in which the second half still finds the term the first half
 * saw (`Guarded`); for what may happen otherwise see ElectionRaces.dfy.
 */
module ElectionSafety {
  import opened ElectionNode

  /** The term in `Beating` is history: a heartbeat carries the term its sender has when it is built. */
  datatype Loop = Idle | Raised(term: nat) | Asking(term: nat) | Beating(term: nat)

  datatype Request = Request(term: nat, candidate: NodeId)
  datatype Grant = Grant(voter: NodeId, candidate: NodeId, term: nat)
  datatype Beat = Beat(term: nat, leader: NodeId)

  /** History: `leader` counted the votes of `quorum` and took office in `term`. */
  datatype Win = Win(term: nat, leader: NodeId, quorum: set<NodeId>)

  /** The fixed membership; collectors are in `all` only. */
  datatype Membership = Membership(all: set<NodeId>, full: set<NodeId>)

  datatype Cluster = Cluster(
    nodes: map<NodeId, NodeState>, loops: map<NodeId, Loop>,
    requests: set<Request>, grants: set<Grant>, beats: set<Beat>, wins: set<Win>)

  datatype Action =
    | Raise(i: NodeId)
    | Persist(i: NodeId)
    | Finish(i: NodeId, granted: set<NodeId>)
    | Vote(i: NodeId, request: Request, upToDate: bool)
    | BeatCheck(i: NodeId)
    | SendBeat(i: NodeId)
    | Heartbeat(i: NodeId, beat: Beat)
    | Observe(i: NodeId, term: nat, leader: NodeId)
    | StepDown(i: NodeId)
    | Save(i: NodeId)
    | Crash(i: NodeId, leaderMode: bool)

  predicate ValidMembership(m: Membership) {
    m.full <= m.all && NOBODY !in m.all
  }

  predicate Shaped(s: Cluster, m: Membership) {
    s.nodes.Keys == m.all && s.loops.Keys == m.all
  }

  /** Any contents of the disks, nothing sent yet. */
  ghost predicate Init(s: Cluster, m: Membership) {
    && Shaped(s, m)
    && (forall i <- m.all :: s.nodes[i] == Restart(s.nodes[i].disk, s.nodes[i].leaderMode))
    && (forall i <- m.all :: s.loops[i] == Idle)
    && s.requests == {} && s.grants == {} && s.beats == {} && s.wins == {}
  }

  predicate Enabled(s: Cluster, m: Membership, a: Action)
    requires Shaped(s, m)
  {
    && a.i in m.all
    && match a
       case Raise(i) => s.loops[i] == Idle && i in m.full && s.nodes[i].role != Leader
       case Persist(i) => s.loops[i].Raised?
       case Finish(i, granted) =>
         && s.loops[i].Asking?
         && granted <= m.full - {i}
         && (forall w <- granted :: Grant(w, i, s.loops[i].term) in s.grants)
       case Vote(i, request, _) => request in s.requests && request.candidate != i
       case BeatCheck(i) => s.loops[i] == Idle && s.nodes[i].role == Leader
       case SendBeat(i) => s.loops[i].Beating?
       case Heartbeat(i, beat) => beat in s.beats && beat.leader != i
       case _ => true
  }

  /** The second half of a non-atomic operation still finds the term the first half read. */
  predicate Guarded(s: Cluster, m: Membership, a: Action)
    requires Shaped(s, m) && Enabled(s, m, a)
  {
    match a
    case Persist(i) => s.nodes[i].term == s.loops[i].term
    case SendBeat(i) => s.nodes[i].term == s.loops[i].term
    case _ => true
  }

  function Put(s: Cluster, i: NodeId, n: NodeState, l: Loop): Cluster {
    s.(nodes := s.nodes[i := n], loops := s.loops[i := l])
  }

  /** What the acting node does to its own state. */
  function NodeAfter(n: NodeState, l: Loop, m: Membership, a: Action): NodeState
    requires a.Persist? ==> l.Raised?
    requires a.Finish? ==> l.Asking?
  {
    match a
    case Raise(i) => ElectionNode.Raise(n, i)
    case Persist(i) => ElectionNode.Persist(n, i, l.term)
    case Finish(i, granted) => ElectionNode.Finish(n, i, l.term, 1 + |granted|, |m.full|)
    case Vote(i, r, upToDate) => HandleVote(n, i in m.full, r.term, r.candidate, upToDate)
    case BeatCheck(i) => n
    case SendBeat(i) => n
    case Heartbeat(i, b) => HandleHeartbeat(n, i, b.term, b.leader)
    case Observe(i, t, leader) => ObserveTerm(n, t, leader)
    case StepDown(i) => ElectionNode.StepDown(n)
    case Save(i) => ElectionNode.Save(n)
    case Crash(i, mode) => Restart(n.disk, mode)
  }

  function LoopAfter(n: NodeState, l: Loop, a: Action): Loop
    requires a.Persist? ==> l.Raised?
  {
    match a
    case Raise(_) => Raised(n.term + 1)
    case Persist(_) => Asking(l.term)
    case BeatCheck(_) => Beating(n.term)
    case Finish(_, _) => Idle
    case SendBeat(_) => Idle
    case Crash(_, _) => Idle
    case _ => l
  }

  function Apply(s: Cluster, m: Membership, a: Action): (s': Cluster)
    requires Shaped(s, m) && Enabled(s, m, a)
    ensures Shaped(s', m)
  {
    var n, l := s.nodes[a.i], s.loops[a.i];
    var s1 := Put(s, a.i, NodeAfter(n, l, m, a), LoopAfter(n, l, a));
    match a
    case Persist(i) =>
      s1.(requests := s.requests + {Request(l.term, i)}, grants := s.grants + {Grant(i, i, l.term)})
    case Finish(i, granted) =>
      if Elected(n, l.term, 1 + |granted|, |m.full|)
      then s1.(wins := s.wins + {Win(l.term, i, granted + {i})})
      else s1
    case Vote(i, r, upToDate) =>
      if Grants(n, i in m.full, r.term, r.candidate, upToDate)
      then s1.(grants := s.grants + {Grant(i, r.candidate, r.term)})
      else s1
    case SendBeat(i) => s1.(beats := s.beats + {Beat(n.term, i)})
    case _ => s1
  }

  /** `acts` can be taken in order from `s`. */
  ghost predicate Run(s: Cluster, m: Membership, acts: seq<Action>)
    requires Shaped(s, m)
    decreases |acts|
  {
    acts == [] || (Enabled(s, m, acts[0]) && Run(Apply(s, m, acts[0]), m, acts[1..]))
  }

  /** ... and no half-done operation is finished on a stale view. */
  ghost predicate GuardedRun(s: Cluster, m: Membership, acts: seq<Action>)
    requires Shaped(s, m) && Run(s, m, acts)
    decreases |acts|
  {
    acts == [] || (Guarded(s, m, acts[0]) && GuardedRun(Apply(s, m, acts[0]), m, acts[1..]))
  }

  ghost function After(s: Cluster, m: Membership, acts: seq<Action>): (s': Cluster)
    requires Shaped(s, m) && Run(s, m, acts)
    ensures Shaped(s', m)
    decreases |acts|
  {
    if acts == [] then s else After(Apply(s, m, acts[0]), m, acts[1..])
  }

  // ---- the invariant ------------------------------------------------------------------------

  ghost predicate Won(wins: set<Win>, term: nat) {
    exists w :: w in wins && w.term == term
  }

  ghost predicate WonBy(wins: set<Win>, term: nat, leader: NodeId) {
    exists w :: w in wins && w.term == term && w.leader == leader
  }

  /** A vote of `voter` for `c` in `term` that neither memory nor disk can forget. */
  predicate Holds(n: NodeState, voter: NodeId, c: NodeId, term: nat) {
    && (n.term > term || (n.term == term && n.votedFor == c && (voter != c ==> n.role == Follower)))
    && (n.id.term > term || n.id.votedFor == c)
    && (n.disk.term > term || n.disk.votedFor == c)
  }

  /** Between `Raise` and `Persist` no vote of this node counts in the new term. */
  ghost predicate RaisedInv(wins: set<Win>, grants: set<Grant>, i: NodeId, n: NodeState, term: nat) {
    && (forall w <- wins :: w.term == term ==> i !in w.quorum)
    && (!Won(wins, term) ==> n.votedFor == i && forall g <- grants :: g.term == term ==> g.voter != i)
  }

  ghost predicate NodeInv(n: NodeState, l: Loop, wins: set<Win>, grants: set<Grant>, full: set<NodeId>, i: NodeId) {
    && n.disk.term <= n.id.term <= n.term
    && (n.id.term < n.term ==> l == Raised(n.term) && n.votedFor == i)
    && (n.role != Follower ==> n.votedFor == i && i in full)
    && (n.role == Leader ==> WonBy(wins, n.term, i))
    && (l.Raised? ==> i in full && l.term <= n.term)
    && (l.Asking? ==> i in full && Grant(i, i, l.term) in grants && !WonBy(wins, l.term, i))
    && (l.Raised? && n.term == l.term ==> RaisedInv(wins, grants, i, n, l.term))
    && (l.Beating? ==> WonBy(wins, l.term, i))
  }

  ghost predicate GrantInv(nodes: map<NodeId, NodeState>, wins: set<Win>, full: set<NodeId>, g: Grant) {
    && g.voter in full && g.voter in nodes && g.candidate in full
    && g.term <= nodes[g.voter].disk.term
    && (Won(wins, g.term) || Holds(nodes[g.voter], g.voter, g.candidate, g.term))
  }

  /** Nobody votes twice in a term that has no leader yet. */
  ghost predicate GrantsUnique(wins: set<Win>, grants: set<Grant>) {
    forall g <- grants, h <- grants ::
      g.voter == h.voter && g.term == h.term && !Won(wins, g.term) ==> g.candidate == h.candidate
  }

  /** Once a term is won, its quorum is past the term or still holds that one vote. */
  ghost predicate WinInv(nodes: map<NodeId, NodeState>, grants: set<Grant>, full: set<NodeId>, w: Win) {
    && w.leader in w.quorum && w.quorum <= full && w.quorum <= nodes.Keys
    && |w.quorum| * 2 > |full|
    && (forall q <- w.quorum :: Grant(q, w.leader, w.term) in grants)
    && (forall q <- w.quorum :: Holds(nodes[q], q, w.leader, w.term))
    && (forall g <- grants :: g.voter in w.quorum && g.term == w.term ==> g.candidate == w.leader)
  }

  ghost predicate OneWinner(wins: set<Win>) {
    forall v <- wins, w <- wins :: v.term == w.term ==> v.leader == w.leader
  }

  ghost predicate Inv(s: Cluster, m: Membership) {
    && ValidMembership(m)
    && Shaped(s, m)
    && (forall i <- m.all :: NodeInv(s.nodes[i], s.loops[i], s.wins, s.grants, m.full, i))
    && (forall r <- s.requests :: r.candidate in m.full)
    && (forall g <- s.grants :: GrantInv(s.nodes, s.wins, m.full, g))
    && GrantsUnique(s.wins, s.grants)
    && (forall b <- s.beats :: WonBy(s.wins, b.term, b.leader))
    && (forall w <- s.wins :: WinInv(s.nodes, s.grants, m.full, w))
    && OneWinner(s.wins)
  }

  lemma {:induction false} InitInv(s: Cluster, m: Membership)
    requires ValidMembership(m) && Init(s, m)
    ensures Inv(s, m)
  {
  }

  lemma {:induction false} Subset(p: set<NodeId>, full: set<NodeId>)
    requires p <= full
    ensures |p| <= |full|
  {
    assert full == p + (full - p);
    assert |p + (full - p)| == |p| + |full - p|;
  }

  /** Two majorities of one electorate share a voter. */
  lemma {:induction false} QuorumsMeet(full: set<NodeId>, p: set<NodeId>, q: set<NodeId>) returns (v: NodeId)
    requires p <= full && q <= full && |p| * 2 > |full| && |q| * 2 > |full|
    ensures v in p && v in q
  {
    if p * q == {} {
      assert |p + q| == |p| + |q|;
      Subset(p + q, full);
      assert false;
    }
    v :| v in p * q;
  }

  /** The vote `i` gave to `c` in `term` can still decide, or has decided, the term. */
  ghost predicate Counts(wins: set<Win>, i: NodeId, c: NodeId, term: nat) {
    !Won(wins, term) || exists w :: w in wins && w.term == term && w.leader == c && i in w.quorum
  }

  /** A change of node `i` that forgets no vote that counts. */
  ghost predicate KeepsVotes(n: NodeState, n': NodeState, wins: set<Win>, i: NodeId) {
    && n.disk.term <= n'.disk.term
    && forall c: NodeId, t: nat ::
         c != NOBODY && t <= n.disk.term && Counts(wins, i, c, t) && Holds(n, i, c, t) ==> Holds(n', i, c, t)
  }

  /** Steps that send nothing and end no campaign: only one node and its loop change. */
  lemma {:induction false} ChangeNode(s: Cluster, m: Membership, i: NodeId, n': NodeState, l': Loop)
    requires Inv(s, m) && i in m.all
    requires KeepsVotes(s.nodes[i], n', s.wins, i)
    requires NodeInv(n', l', s.wins, s.grants, m.full, i)
    ensures Inv(Put(s, i, n', l'), m)
  {
    var nodes' := s.nodes[i := n'];
    forall w <- s.wins
      ensures WinInv(nodes', s.grants, m.full, w)
    {
      assert WinInv(s.nodes, s.grants, m.full, w);
      if i in w.quorum {
        assert GrantInv(s.nodes, s.wins, m.full, Grant(i, w.leader, w.term));
        assert Counts(s.wins, i, w.leader, w.term);
      }
    }
    forall g <- s.grants
      ensures GrantInv(nodes', s.wins, m.full, g)
    {
      assert GrantInv(s.nodes, s.wins, m.full, g);
    }
  }

  lemma {:induction false} StaysUnique(wins: set<Win>, grants: set<Grant>, g: Grant)
    requires GrantsUnique(wins, grants)
    requires !Won(wins, g.term) ==>
      forall h <- grants :: h.voter == g.voter && h.term == g.term ==> h.candidate == g.candidate
    ensures GrantsUnique(wins, grants + {g})
  {
  }

  lemma {:induction false} GrantSeenBy(n: NodeState, l: Loop, wins: set<Win>, grants: set<Grant>, full: set<NodeId>,
                                       i: NodeId, g: Grant)
    requires NodeInv(n, l, wins, grants, full, i)
    requires g.voter == i && l == Raised(g.term) ==> Won(wins, g.term)
    ensures NodeInv(n, l, wins, grants + {g}, full, i)
  {
  }

  lemma {:induction false} NodesSeeGrant(s: Cluster, m: Membership, g: Grant)
    requires Inv(s, m) && g.voter in m.all && (s.loops[g.voter] == Raised(g.term) ==> Won(s.wins, g.term))
    ensures forall i <- m.all :: NodeInv(s.nodes[i], s.loops[i], s.wins, s.grants + {g}, m.full, i)
  {
    forall i <- m.all
      ensures NodeInv(s.nodes[i], s.loops[i], s.wins, s.grants + {g}, m.full, i)
    {
      GrantSeenBy(s.nodes[i], s.loops[i], s.wins, s.grants, m.full, i, g);
    }
  }

  /** Recording a vote that the voter holds and that contradicts no earlier one. */
  lemma {:induction false} AddGrant(s: Cluster, m: Membership, g: Grant)
    requires Inv(s, m)
    requires GrantInv(s.nodes, s.wins, m.full, g)
    requires !Won(s.wins, g.term) ==>
      forall h <- s.grants :: h.voter == g.voter && h.term == g.term ==> h.candidate == g.candidate
    requires forall w <- s.wins :: w.term == g.term && g.voter in w.quorum ==> w.leader == g.candidate
    requires g.voter in m.all && (s.loops[g.voter] == Raised(g.term) ==> Won(s.wins, g.term))
    ensures Inv(s.(grants := s.grants + {g}), m)
  {
    StaysUnique(s.wins, s.grants, g);
    NodesSeeGrant(s, m, g);
    forall w <- s.wins
      ensures WinInv(s.nodes, s.grants + {g}, m.full, w)
    {
      assert WinInv(s.nodes, s.grants, m.full, w);
    }
  }

  lemma {:induction false} RaiseStep(s: Cluster, m: Membership, i: NodeId)
    requires Inv(s, m) && Enabled(s, m, Raise(i))
    ensures Inv(Apply(s, m, Raise(i)), m)
  {
    var n := s.nodes[i];
    var n', t := ElectionNode.Raise(n, i), n.term + 1;
    assert NodeInv(n, s.loops[i], s.wins, s.grants, m.full, i);
    forall g <- s.grants | g.term == t
      ensures g.voter != i
    {
      assert GrantInv(s.nodes, s.wins, m.full, g);
    }
    forall w <- s.wins | w.term == t
      ensures i !in w.quorum
    {
      assert WinInv(s.nodes, s.grants, m.full, w);
    }
    assert RaisedInv(s.wins, s.grants, i, n', t);
    ChangeNode(s, m, i, n', Raised(t));
  }

  /** Writing the current campaign to disk: the node had no vote in that term that counts. */
  lemma {:induction false} PersistNode(n: NodeState, i: NodeId, t: nat, wins: set<Win>, grants: set<Grant>,
                                       full: set<NodeId>)
    requires NodeInv(n, Raised(t), wins, grants, full, i) && n.term == t
    requires forall g <- grants :: g.voter == i && !Won(wins, g.term) ==> Holds(n, i, g.candidate, g.term)
    requires i != NOBODY
    ensures var n' := ElectionNode.Persist(n, i, t);
      KeepsVotes(n, n', wins, i) && NodeInv(n', Idle, wins, grants, full, i)
  {
    var n' := ElectionNode.Persist(n, i, t);
    forall c: NodeId, u: nat | u <= n.disk.term && Counts(wins, i, c, u) && Holds(n, i, c, u)
      ensures Holds(n', i, c, u)
    {
      if u == t { assert !Won(wins, t); }
    }
  }

  lemma {:induction false} NoOwnWin(s: Cluster, m: Membership, i: NodeId)
    requires Inv(s, m) && i in m.all && s.loops[i] == Raised(s.nodes[i].term)
    ensures !WonBy(s.wins, s.nodes[i].term, i)
  {
    assert RaisedInv(s.wins, s.grants, i, s.nodes[i], s.nodes[i].term);
    forall w <- s.wins | w.term == s.nodes[i].term
      ensures w.leader != i
    {
      assert WinInv(s.nodes, s.grants, m.full, w);
    }
  }

  lemma {:induction false} SelfVote(s: Cluster, m: Membership, i: NodeId, t: nat)
    requires Inv(s, m) && i in m.full && s.loops[i] == Idle
    requires t <= s.nodes[i].disk.term
    requires Won(s.wins, t) || Holds(s.nodes[i], i, i, t)
    requires forall w <- s.wins :: w.term == t ==> i !in w.quorum
    requires !Won(s.wins, t) ==> forall g <- s.grants :: g.term == t ==> g.voter != i
    ensures Inv(s.(grants := s.grants + {Grant(i, i, t)}), m)
  {
    AddGrant(s, m, Grant(i, i, t));
  }

  lemma {:induction false} Ask(s: Cluster, m: Membership, i: NodeId, t: nat)
    requires Inv(s, m) && i in m.full && s.loops[i] == Idle
    requires Grant(i, i, t) in s.grants && !WonBy(s.wins, t, i)
    ensures Inv(s.(loops := s.loops[i := Asking(t)], requests := s.requests + {Request(t, i)}), m)
  {
    assert NodeInv(s.nodes[i], s.loops[i], s.wins, s.grants, m.full, i);
  }

  /** Before it is written, the vote of an own campaign counts nowhere, and every other vote is held. */
  lemma {:induction false} NoVoteYet(s: Cluster, m: Membership, i: NodeId)
    requires Inv(s, m) && i in m.all && s.loops[i] == Raised(s.nodes[i].term)
    ensures NodeInv(s.nodes[i], s.loops[i], s.wins, s.grants, m.full, i)
    ensures RaisedInv(s.wins, s.grants, i, s.nodes[i], s.nodes[i].term)
    ensures forall g <- s.grants :: g.voter == i && !Won(s.wins, g.term) ==> Holds(s.nodes[i], i, g.candidate, g.term)
  {
    forall g <- s.grants | g.voter == i && !Won(s.wins, g.term)
      ensures Holds(s.nodes[i], i, g.candidate, g.term)
    {
      assert GrantInv(s.nodes, s.wins, m.full, g);
    }
  }

  lemma {:induction false} PersistVote(s: Cluster, m: Membership, i: NodeId, t: nat)
    requires Inv(s, m) && i in m.all && t == s.nodes[i].term && s.loops[i] == Raised(t)
    ensures i in m.full
    ensures Inv(Put(s, i, ElectionNode.Persist(s.nodes[i], i, t), Idle).(grants := s.grants + {Grant(i, i, t)}), m)
  {
    NoVoteYet(s, m, i);
    var n' := ElectionNode.Persist(s.nodes[i], i, t);
    PersistNode(s.nodes[i], i, t, s.wins, s.grants, m.full);
    ChangeNode(s, m, i, n', Idle);
    SelfVote(Put(s, i, n', Idle), m, i, t);
  }

  /** The vote is recorded, then the node asks for others. */
  lemma {:induction false} PersistParts(s: Cluster, m: Membership, i: NodeId, t: nat)
    requires Shaped(s, m) && Enabled(s, m, Persist(i)) && s.loops[i] == Raised(t)
    ensures var s2 := Put(s, i, ElectionNode.Persist(s.nodes[i], i, t), Idle).(grants := s.grants + {Grant(i, i, t)});
      Apply(s, m, Persist(i))
      == s2.(loops := s2.loops[i := Asking(t)], requests := s2.requests + {Request(t, i)})
  {
    assert s.loops[i := Idle][i := Asking(t)] == s.loops[i := Asking(t)];
  }

  lemma {:induction false} PersistStep(s: Cluster, m: Membership, i: NodeId)
    requires Inv(s, m) && Enabled(s, m, Persist(i)) && Guarded(s, m, Persist(i))
    ensures Inv(Apply(s, m, Persist(i)), m)
  {
    var t := s.loops[i].term;
    PersistVote(s, m, i, t);
    NoOwnWin(s, m, i);
    PersistParts(s, m, i, t);
    Ask(Put(s, i, ElectionNode.Persist(s.nodes[i], i, t), Idle).(grants := s.grants + {Grant(i, i, t)}), m, i, t);
  }

  /** Answering a vote request forgets no vote; a granted vote is one the node holds. */
  lemma {:induction false} VoteNode(n: NodeState, l: Loop, wins: set<Win>, grants: set<Grant>, full: set<NodeId>,
                 i: NodeId, r: Request, upToDate: bool)
    requires NodeInv(n, l, wins, grants, full, i)
    requires r.candidate != NOBODY && r.candidate != i && i != NOBODY
    ensures var n' := HandleVote(n, i in full, r.term, r.candidate, upToDate);
      && NodeInv(n', l, wins, grants, full, i)
      && KeepsVotes(n, n', wins, i)
      && (Grants(n, i in full, r.term, r.candidate, upToDate) ==>
            && i in full && r.term == n'.disk.term && Holds(n', i, r.candidate, r.term)
            && (l == Raised(r.term) ==> Won(wins, r.term))
            && (forall c: NodeId ::
                  c != NOBODY && r.term <= n.disk.term && Holds(n, i, c, r.term) ==> c == r.candidate))
  {
  }

  lemma {:induction false} CastVote(s: Cluster, m: Membership, i: NodeId, r: Request)
    requires Inv(s, m) && i in m.full && r.candidate in m.full
    requires r.term == s.nodes[i].disk.term && Holds(s.nodes[i], i, r.candidate, r.term)
    requires s.loops[i] == Raised(r.term) ==> Won(s.wins, r.term)
    requires !Won(s.wins, r.term) ==>
      forall h <- s.grants :: h.voter == i && h.term == r.term ==> h.candidate == r.candidate
    requires forall w <- s.wins :: w.term == r.term && i in w.quorum ==> w.leader == r.candidate
    ensures Inv(s.(grants := s.grants + {Grant(i, r.candidate, r.term)}), m)
  {
    AddGrant(s, m, Grant(i, r.candidate, r.term));
  }

  lemma {:induction false} VoteStep(s: Cluster, m: Membership, i: NodeId, r: Request, upToDate: bool)
    requires Inv(s, m) && Enabled(s, m, Vote(i, r, upToDate))
    ensures Inv(Apply(s, m, Vote(i, r, upToDate)), m)
  {
    var n, l := s.nodes[i], s.loops[i];
    var n' := HandleVote(n, i in m.full, r.term, r.candidate, upToDate);
    VoteNode(n, l, s.wins, s.grants, m.full, i, r, upToDate);
    ChangeNode(s, m, i, n', l);
    if Grants(n, i in m.full, r.term, r.candidate, upToDate) {
      forall h <- s.grants | h.voter == i && h.term == r.term && !Won(s.wins, r.term)
        ensures h.candidate == r.candidate
      {
        assert GrantInv(s.nodes, s.wins, m.full, h);
      }
      forall w <- s.wins | w.term == r.term && i in w.quorum
        ensures w.leader == r.candidate
      {
        assert WinInv(s.nodes, s.grants, m.full, w);
        assert GrantInv(s.nodes, s.wins, m.full, Grant(i, w.leader, w.term));
      }
      CastVote(Put(s, i, n', l), m, i, r);
    }
  }

  lemma {:induction false} HeartbeatStep(s: Cluster, m: Membership, i: NodeId, b: Beat)
    requires Inv(s, m) && Enabled(s, m, Heartbeat(i, b))
    ensures Inv(Apply(s, m, Heartbeat(i, b)), m)
  {
    var n, l := s.nodes[i], s.loops[i];
    var n' := HandleHeartbeat(n, i, b.term, b.leader);
    assert NodeInv(n, l, s.wins, s.grants, m.full, i);
    assert WonBy(s.wins, b.term, b.leader);
    if b.term == n.term && n.role != Follower {
      // A vote for the sender was counted from a follower, and this node is not one.
      forall w <- s.wins | w.term == b.term
        ensures i !in w.quorum
      {
        assert WinInv(s.nodes, s.grants, m.full, w);
      }
    }
    ChangeNode(s, m, i, n', l);
  }

  lemma {:induction false} ObserveStep(s: Cluster, m: Membership, i: NodeId, term: nat, leader: NodeId)
    requires Inv(s, m) && Enabled(s, m, Observe(i, term, leader))
    ensures Inv(Apply(s, m, Observe(i, term, leader)), m)
  {
    assert NodeInv(s.nodes[i], s.loops[i], s.wins, s.grants, m.full, i);
    ChangeNode(s, m, i, ObserveTerm(s.nodes[i], term, leader), s.loops[i]);
  }

  lemma {:induction false} LocalNode(n: NodeState, l: Loop, wins: set<Win>, grants: set<Grant>, full: set<NodeId>,
                                     m: Membership, a: Action)
    requires a.StepDown? || a.Save? || a.Crash? || (a.BeatCheck? && l == Idle && n.role == Leader)
    requires NodeInv(n, l, wins, grants, full, a.i)
    ensures KeepsVotes(n, NodeAfter(n, l, m, a), wins, a.i)
    ensures NodeInv(NodeAfter(n, l, m, a), LoopAfter(n, l, a), wins, grants, full, a.i)
  {
  }

  lemma {:induction false} LocalStep(s: Cluster, m: Membership, a: Action)
    requires a.StepDown? || a.Save? || a.Crash? || a.BeatCheck?
    requires Inv(s, m) && Enabled(s, m, a)
    ensures Inv(Apply(s, m, a), m)
  {
    var n, l := s.nodes[a.i], s.loops[a.i];
    LocalNode(n, l, s.wins, s.grants, m.full, m, a);
    ChangeNode(s, m, a.i, NodeAfter(n, l, m, a), LoopAfter(n, l, a));
  }

  lemma {:induction false} AddBeat(s: Cluster, m: Membership, b: Beat)
    requires Inv(s, m) && WonBy(s.wins, b.term, b.leader)
    ensures Inv(s.(beats := s.beats + {b}), m)
  {
  }

  lemma {:induction false} SendBeatStep(s: Cluster, m: Membership, i: NodeId)
    requires Inv(s, m) && Enabled(s, m, SendBeat(i)) && Guarded(s, m, SendBeat(i))
    ensures Inv(Apply(s, m, SendBeat(i)), m)
  {
    assert NodeInv(s.nodes[i], s.loops[i], s.wins, s.grants, m.full, i);
    ChangeNode(s, m, i, s.nodes[i], Idle);
    AddBeat(Put(s, i, s.nodes[i], Idle), m, Beat(s.nodes[i].term, i));
  }

  /** A candidate that counts a majority is the first to do so in its term. */
  lemma {:induction false} NobodyElseWon(s: Cluster, m: Membership, i: NodeId, granted: set<NodeId>)
    requires Inv(s, m) && Enabled(s, m, Finish(i, granted))
    requires (1 + |granted|) * 2 > |m.full|
    ensures !Won(s.wins, s.loops[i].term)
  {
    var t, q := s.loops[i].term, granted + {i};
    assert NodeInv(s.nodes[i], s.loops[i], s.wins, s.grants, m.full, i);
    assert |q| == 1 + |granted|;
    forall w <- s.wins
      ensures w.term != t
    {
      assert WinInv(s.nodes, s.grants, m.full, w);
      var v := QuorumsMeet(m.full, q, w.quorum);
      assert Grant(v, i, t) in s.grants;
    }
  }

  lemma {:induction false} AskingInv(s: Cluster, m: Membership, i: NodeId)
    requires Inv(s, m) && i in m.all && s.loops[i].Asking?
    ensures i in m.full && Grant(i, i, s.loops[i].term) in s.grants && !WonBy(s.wins, s.loops[i].term, i)
    ensures NodeInv(s.nodes[i], Idle, s.wins, s.grants, m.full, i)
  {
    assert NodeInv(s.nodes[i], s.loops[i], s.wins, s.grants, m.full, i);
  }

  lemma {:induction false} Majority(s: Cluster, m: Membership, i: NodeId, granted: set<NodeId>)
    requires Inv(s, m) && Enabled(s, m, Finish(i, granted))
    requires Elected(s.nodes[i], s.loops[i].term, 1 + |granted|, |m.full|)
    ensures i in m.full && granted + {i} <= m.full && |granted + {i}| * 2 > |m.full|
    ensures forall q <- granted + {i} :: Grant(q, i, s.loops[i].term) in s.grants
    ensures !Won(s.wins, s.loops[i].term)
  {
    AskingInv(s, m, i);
    Subset({i}, m.full);
    NobodyElseWon(s, m, i, granted);
    assert |granted + {i}| == 1 + |granted|;
  }

  /** After the count a candidate is leader of a term it has won, or a follower. */
  lemma {:induction false} CloseCampaign(s: Cluster, m: Membership, i: NodeId, n': NodeState)
    requires Inv(s, m) && i in m.all && s.loops[i] == Idle
    requires var n := s.nodes[i];
      && n'.term == n.term && n'.votedFor == n.votedFor
      && n'.id.term == n.id.term && n'.id.votedFor == n.id.votedFor
      && (n'.disk == n.disk || n'.disk == n'.id)
      && (n'.role == n.role || n'.role == Follower
          || (n'.role == Leader && n.role == Candidate && WonBy(s.wins, n.term, i)))
    ensures Inv(s.(nodes := s.nodes[i := n']), m)
  {
    assert NodeInv(s.nodes[i], s.loops[i], s.wins, s.grants, m.full, i);
    ChangeNode(s, m, i, n', Idle);
    assert s.loops[i := Idle] == s.loops;
  }

  lemma {:induction false} MoreWins(wins: set<Win>, w: Win)
    ensures forall t: nat :: Won(wins, t) ==> Won(wins + {w}, t)
    ensures forall t: nat, l: NodeId :: WonBy(wins, t, l) ==> WonBy(wins + {w}, t, l)
    ensures Won(wins + {w}, w.term)
  {
    assert w in wins + {w};
    forall t: nat, l: NodeId | WonBy(wins, t, l)
      ensures WonBy(wins + {w}, t, l)
    {
      var v :| v in wins && v.term == t && v.leader == l;
      assert v in wins + {w};
    }
    forall t: nat | Won(wins, t)
      ensures Won(wins + {w}, t)
    {
      var v :| v in wins && v.term == t;
      assert v in wins + {w};
    }
  }

  /** Votes, heartbeats and earlier wins stay in order when a term gets its first winner. */
  lemma {:induction false} OthersSeeWin(s: Cluster, m: Membership, w: Win)
    requires Inv(s, m) && !Won(s.wins, w.term)
    ensures forall g <- s.grants :: GrantInv(s.nodes, s.wins + {w}, m.full, g)
    ensures forall b <- s.beats :: WonBy(s.wins + {w}, b.term, b.leader)
    ensures GrantsUnique(s.wins + {w}, s.grants) && OneWinner(s.wins + {w})
  {
    MoreWins(s.wins, w);
    forall g <- s.grants ensures GrantInv(s.nodes, s.wins + {w}, m.full, g) {
      assert GrantInv(s.nodes, s.wins, m.full, g);
    }
  }

  lemma {:induction false} NewWinHolds(s: Cluster, m: Membership, w: Win)
    requires Inv(s, m) && !Won(s.wins, w.term) && w.leader in w.quorum
    requires w.quorum <= m.full && |w.quorum| * 2 > |m.full|
    requires forall q <- w.quorum :: Grant(q, w.leader, w.term) in s.grants
    ensures WinInv(s.nodes, s.grants, m.full, w)
  {
    forall q <- w.quorum
      ensures Holds(s.nodes[q], q, w.leader, w.term)
    {
      assert GrantInv(s.nodes, s.wins, m.full, Grant(q, w.leader, w.term));
    }
  }

  lemma {:induction false} WinSeenBy(n: NodeState, l: Loop, wins: set<Win>, grants: set<Grant>, full: set<NodeId>,
                                     j: NodeId, w: Win)
    requires NodeInv(n, l, wins, grants, full, j) && !Won(wins, w.term)
    requires forall q <- w.quorum :: Grant(q, w.leader, w.term) in grants
    ensures NodeInv(n, if j == w.leader && l.Asking? then Idle else l, wins + {w}, grants, full, j)
  {
    MoreWins(wins, w);
    if l.Raised? && n.term == l.term {
      assert RaisedInv(wins, grants, j, n, l.term);
      forall v <- wins + {w} | v.term == l.term
        ensures j !in v.quorum
      {
      }
    }
  }

  lemma {:induction false} NodesSeeWin(s: Cluster, m: Membership, i: NodeId, w: Win)
    requires Inv(s, m) && i in m.all && s.loops[i].Asking? && !Won(s.wins, w.term) && w.leader == i
    requires forall q <- w.quorum :: Grant(q, i, w.term) in s.grants
    ensures forall j <- m.all :: NodeInv(s.nodes[j], s.loops[i := Idle][j], s.wins + {w}, s.grants, m.full, j)
  {
    forall j <- m.all
      ensures NodeInv(s.nodes[j], s.loops[i := Idle][j], s.wins + {w}, s.grants, m.full, j)
    {
      WinSeenBy(s.nodes[j], s.loops[j], s.wins, s.grants, m.full, j, w);
    }
  }

  /** Recording the first winner of a term. */
  lemma {:induction false} TakeOffice(s: Cluster, m: Membership, i: NodeId, w: Win)
    requires Inv(s, m) && i in m.full && s.loops[i].Asking?
    requires !Won(s.wins, w.term) && w.leader == i && i in w.quorum
    requires w.quorum <= m.full && |w.quorum| * 2 > |m.full|
    requires forall q <- w.quorum :: Grant(q, i, w.term) in s.grants
    ensures Inv(s.(wins := s.wins + {w}, loops := s.loops[i := Idle]), m)
  {
    NewWinHolds(s, m, w);
    NodesSeeWin(s, m, i, w);
    OthersSeeWin(s, m, w);
  }

  lemma {:induction false} FinishWon(s: Cluster, m: Membership, i: NodeId, granted: set<NodeId>)
    requires Inv(s, m) && Enabled(s, m, Finish(i, granted))
    requires Elected(s.nodes[i], s.loops[i].term, 1 + |granted|, |m.full|)
    ensures Inv(Apply(s, m, Finish(i, granted)), m)
  {
    var n, t := s.nodes[i], s.loops[i].term;
    var w := Win(t, i, granted + {i});
    Majority(s, m, i, granted);
    TakeOffice(s, m, i, w);
    MoreWins(s.wins, w);
    CloseCampaign(s.(wins := s.wins + {w}, loops := s.loops[i := Idle]), m, i,
                  ElectionNode.Finish(n, i, t, 1 + |granted|, |m.full|));
  }

  lemma {:induction false} FinishLost(s: Cluster, m: Membership, i: NodeId, n': NodeState)
    requires Inv(s, m) && i in m.all && s.loops[i].Asking?
    requires n' == s.nodes[i] || n' == s.nodes[i].(role := Follower)
    ensures Inv(Put(s, i, n', Idle), m)
  {
    AskingInv(s, m, i);
    ChangeNode(s, m, i, n', Idle);
  }

  lemma {:induction false} FinishStep(s: Cluster, m: Membership, i: NodeId, granted: set<NodeId>)
    requires Inv(s, m) && Enabled(s, m, Finish(i, granted))
    ensures Inv(Apply(s, m, Finish(i, granted)), m)
  {
    var n, t := s.nodes[i], s.loops[i].term;
    if Elected(n, t, 1 + |granted|, |m.full|) {
      FinishWon(s, m, i, granted);
    } else {
      FinishLost(s, m, i, ElectionNode.Finish(n, i, t, 1 + |granted|, |m.full|));
    }
  }

  lemma {:induction false} Step(s: Cluster, m: Membership, a: Action)
    requires Inv(s, m) && Enabled(s, m, a) && Guarded(s, m, a)
    ensures Inv(Apply(s, m, a), m)
  {
    match a
    case Raise(i) => RaiseStep(s, m, i);
    case Persist(i) => PersistStep(s, m, i);
    case Finish(i, granted) => FinishStep(s, m, i, granted);
    case Vote(i, r, upToDate) => VoteStep(s, m, i, r, upToDate);
    case SendBeat(i) => SendBeatStep(s, m, i);
    case Heartbeat(i, b) => HeartbeatStep(s, m, i, b);
    case Observe(i, t, leader) => ObserveStep(s, m, i, t, leader);
    case _ => LocalStep(s, m, a);
  }

  lemma {:induction false} RunInv(s: Cluster, m: Membership, acts: seq<Action>)
    requires Inv(s, m) && Run(s, m, acts) && GuardedRun(s, m, acts)
    ensures Inv(After(s, m, acts), m)
    decreases |acts|
  {
    if acts != [] {
      Step(s, m, acts[0]);
      RunInv(Apply(s, m, acts[0]), m, acts[1..]);
    }
  }

  // ---- what the election promises ------------------------------------------------------------

  /** Election safety: over every run no two different nodes ever win the same term. */
  lemma {:induction false} ElectionIsSafe(s: Cluster, m: Membership, acts: seq<Action>)
    requires ValidMembership(m) && Init(s, m)
    requires Run(s, m, acts) && GuardedRun(s, m, acts)
    ensures OneWinner(After(s, m, acts).wins)
  {
    InitInv(s, m);
    RunInv(s, m, acts);
  }

  lemma {:induction false} LeaderHasWon(s: Cluster, m: Membership, i: NodeId)
    requires Inv(s, m) && i in m.all && s.nodes[i].role == Leader
    ensures WonBy(s.wins, s.nodes[i].term, i)
  {
    assert NodeInv(s.nodes[i], s.loops[i], s.wins, s.grants, m.full, i);
  }

  lemma {:induction false} SameWinner(wins: set<Win>, t: nat, i: NodeId, j: NodeId)
    requires OneWinner(wins) && WonBy(wins, t, i) && WonBy(wins, t, j)
    ensures i == j
  {
  }

  /** At no moment are two nodes leader of the same term. */
  lemma {:induction false} OneLeaderPerTerm(s: Cluster, m: Membership, acts: seq<Action>, i: NodeId, j: NodeId)
    requires ValidMembership(m) && Init(s, m)
    requires Run(s, m, acts) && GuardedRun(s, m, acts)
    requires i in m.all && j in m.all
    requires var e := After(s, m, acts);
      e.nodes[i].role == Leader && e.nodes[j].role == Leader && e.nodes[i].term == e.nodes[j].term
    ensures i == j
  {
    InitInv(s, m);
    RunInv(s, m, acts);
    var e := After(s, m, acts);
    LeaderHasWon(e, m, i);
    LeaderHasWon(e, m, j);
    SameWinner(e.wins, e.nodes[i].term, i, j);
  }

  lemma {:induction false} NodeTerms(n: NodeState, l: Loop, m: Membership, a: Action)
    requires n.disk.term <= n.id.term <= n.term
    requires a.Persist? ==> l == Raised(n.term)
    requires a.Finish? ==> l.Asking?
    ensures var n' := NodeAfter(n, l, m, a);
      n.disk.term <= n'.disk.term && (if a.Crash? then n'.term == n.disk.term else n.term <= n'.term)
  {
  }

  /** Memory never goes back to an older term, except by a restart, which resumes at the
      persisted term; the persisted term itself never goes back. */
  lemma {:induction false} TermsNeverDecrease(s: Cluster, m: Membership, a: Action, i: NodeId)
    requires Inv(s, m) && Enabled(s, m, a) && Guarded(s, m, a) && i in m.all
    ensures var n, n' := s.nodes[i], Apply(s, m, a).nodes[i];
      && n.disk.term <= n'.disk.term
      && (a.Crash? && a.i == i ==> n'.term == n.disk.term)
      && (!(a.Crash? && a.i == i) ==> n.term <= n'.term)
  {
    assert NodeInv(s.nodes[i], s.loops[i], s.wins, s.grants, m.full, i);
    if i == a.i {
      NodeTerms(s.nodes[i], s.loops[i], m, a);
    }
  }

  lemma {:induction false} PersistedTermNeverDecreases(s: Cluster, m: Membership, acts: seq<Action>, i: NodeId)
    requires Inv(s, m) && Run(s, m, acts) && GuardedRun(s, m, acts) && i in m.all
    ensures s.nodes[i].disk.term <= After(s, m, acts).nodes[i].disk.term
    decreases |acts|
  {
    if acts != [] {
      TermsNeverDecrease(s, m, acts[0], i);
      Step(s, m, acts[0]);
      PersistedTermNeverDecreases(Apply(s, m, acts[0]), m, acts[1..], i);
    }
  }

  /** A heartbeat clears the vote in memory and leaves the old one on disk: what is on disk binds the
      node at least as much as memory does.  Behind an older term on disk there is no vote in memory but
      the one of an own campaign that is not written yet. */
  ghost predicate DiskBinds(n: NodeState, self: NodeId) {
    && (n.id.term == n.term ==> n.votedFor == NOBODY || n.id.votedFor == n.votedFor || n.id.votedFor == self)
    && (n.disk.term == n.term ==> n.votedFor == NOBODY || n.disk.votedFor == n.votedFor || n.disk.votedFor == self)
    && (n.disk.term < n.term ==> n.votedFor == NOBODY || n.votedFor == self)
  }

  lemma {:induction false} BoundNode(n: NodeState, l: Loop, m: Membership, a: Action)
    requires n.disk.term <= n.id.term <= n.term
    requires n.id.term < n.term ==> l == Raised(n.term) && n.votedFor == a.i
    requires a.Raise? ==> l == Idle
    requires a.Persist? ==> l == Raised(n.term)
    requires a.Finish? ==> l.Asking?
    requires a.Vote? ==> a.request.candidate != a.i
    requires a.i != NOBODY
    requires DiskBinds(n, a.i)
    ensures DiskBinds(NodeAfter(n, l, m, a), a.i)
  {
  }

  lemma {:induction false} BoundStep(s: Cluster, m: Membership, a: Action, i: NodeId)
    requires Shaped(s, m) && ValidMembership(m) && Enabled(s, m, a) && Guarded(s, m, a) && i in m.all
    requires NodeInv(s.nodes[i], s.loops[i], s.wins, s.grants, m.full, i)
    requires DiskBinds(s.nodes[i], i)
    ensures DiskBinds(Apply(s, m, a).nodes[i], i)
  {
    if i == a.i {
      BoundNode(s.nodes[i], s.loops[i], m, a);
    }
  }

  lemma {:induction false} BoundRun(s: Cluster, m: Membership, acts: seq<Action>, i: NodeId)
    requires Inv(s, m) && Run(s, m, acts) && GuardedRun(s, m, acts) && i in m.all
    requires DiskBinds(s.nodes[i], i)
    ensures DiskBinds(After(s, m, acts).nodes[i], i) && Inv(After(s, m, acts), m)
    decreases |acts|
  {
    if acts != [] {
      Step(s, m, acts[0]);
      BoundStep(s, m, acts[0], i);
      BoundRun(Apply(s, m, acts[0]), m, acts[1..], i);
    }
  }

  lemma {:induction false} BoundGrants(n: NodeState, i: NodeId, isFull: bool, r: Request, upToDate: bool, mode: bool)
    requires DiskBinds(n, i) && n.disk.term <= n.term && r.term >= n.term
    requires r.candidate != i && r.candidate != NOBODY && i != NOBODY
    requires Grants(Restart(n.disk, mode), isFull, r.term, r.candidate, upToDate)
    ensures Grants(n, isFull, r.term, r.candidate, upToDate)
         || (r.term == n.term && n.disk.term < n.term && n.votedFor == i)
  {
  }

  /** In every guarded run: a node restarted from its disk grants nothing of its present or a later term
      that the running node would refuse, except in the term of an own campaign that is not on
      disk yet. */
  lemma {:induction false} RestartFreesNoVote(s: Cluster, m: Membership, acts: seq<Action>, i: NodeId, r: Request,
                                              upToDate: bool, mode: bool)
    requires ValidMembership(m) && Init(s, m)
    requires Run(s, m, acts) && GuardedRun(s, m, acts)
    requires i in m.all && r.candidate != i && r.candidate != NOBODY
    requires var n := After(s, m, acts).nodes[i];
      r.term >= n.term && Grants(Restart(n.disk, mode), i in m.full, r.term, r.candidate, upToDate)
    ensures var n := After(s, m, acts).nodes[i];
      Grants(n, i in m.full, r.term, r.candidate, upToDate)
      || (r.term == n.term && n.disk.term < n.term && n.votedFor == i)
  {
    InitInv(s, m);
    BoundRun(s, m, acts, i);
    var s' := After(s, m, acts);
    assert NodeInv(s'.nodes[i], s'.loops[i], s'.wins, s'.grants, m.full, i);
    BoundGrants(s'.nodes[i], i, i in m.full, r, upToDate, mode);
  }

  // ---- where votes come from ------------------------------------------------------------------

  /** The vote is a full member's answer to that candidate's request, given with the test of freshness
      passed, or the candidate's own. */
  predicate Cast(m: Membership, acts: seq<Action>, g: Grant) {
    && g.voter in m.full
    && (g.voter != g.candidate ==> Vote(g.voter, Request(g.term, g.candidate), true) in acts)
    && (g.voter == g.candidate ==> Persist(g.voter) in acts)
  }

  ghost predicate OwnCampaigns(s: Cluster, m: Membership) {
    Shaped(s, m) && forall i <- m.all :: s.loops[i].Raised? ==> i in m.full
  }

  lemma {:induction false} CampaignsStayOwn(s: Cluster, m: Membership, a: Action)
    requires OwnCampaigns(s, m) && Enabled(s, m, a)
    ensures OwnCampaigns(Apply(s, m, a), m)
  {
  }

  lemma {:induction false} NewGrant(s: Cluster, m: Membership, a: Action, g: Grant)
    requires OwnCampaigns(s, m) && Enabled(s, m, a) && g in Apply(s, m, a).grants && g !in s.grants
    ensures Cast(m, [a], g)
  {
    match a
    case Persist(i) =>
    case Vote(i, r, upToDate) =>
      assert a == Vote(g.voter, Request(g.term, g.candidate), true);
    case _ =>
  }

  lemma {:induction false} GrantsAreCast(s: Cluster, m: Membership, acts: seq<Action>, g: Grant)
    requires OwnCampaigns(s, m) && Run(s, m, acts) && g in After(s, m, acts).grants
    ensures g in s.grants || Cast(m, acts, g)
    decreases |acts|
  {
    if acts != [] {
      var s' := Apply(s, m, acts[0]);
      CampaignsStayOwn(s, m, acts[0]);
      GrantsAreCast(s', m, acts[1..], g);
      if g in s'.grants && g !in s.grants { NewGrant(s, m, acts[0], g); }
    }
  }

  /** In every run, guarded or not: every vote on record was cast by a full member, and one for another node
      only to its request and with the test of freshness passed. */
  lemma {:induction false} EveryGrantIsCast(s: Cluster, m: Membership, acts: seq<Action>, g: Grant)
    requires ValidMembership(m) && Init(s, m) && Run(s, m, acts) && g in After(s, m, acts).grants
    ensures g.voter in m.full
    ensures g.voter != g.candidate ==> Vote(g.voter, Request(g.term, g.candidate), true) in acts
    ensures g.voter == g.candidate ==> Persist(g.voter) in acts
  {
    GrantsAreCast(s, m, acts, g);
  }

  /** So every winner of a guarded run has more than half of the full members behind it, each of them but
      itself with a vote that passed that test. */
  lemma {:induction false} WinnersAreFresh(s: Cluster, m: Membership, acts: seq<Action>, w: Win)
    requires ValidMembership(m) && Init(s, m) && Run(s, m, acts) && GuardedRun(s, m, acts)
    requires w in After(s, m, acts).wins
    ensures w.quorum <= m.full && |w.quorum| * 2 > |m.full|
    ensures forall q <- w.quorum :: q != w.leader ==> Vote(q, Request(w.term, w.leader), true) in acts
  {
    InitInv(s, m);
    RunInv(s, m, acts);
    var s' := After(s, m, acts);
    assert WinInv(s'.nodes, s'.grants, m.full, w);
    forall q <- w.quorum | q != w.leader ensures Vote(q, Request(w.term, w.leader), true) in acts {
      EveryGrantIsCast(s, m, acts, Grant(q, w.leader, w.term));
    }
  }
}
