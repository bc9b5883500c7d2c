/**
 * The two guards of ElectionSafety are needed: for each of them a run of three nodes in which
 * it is broken exactly once and no other is, and two nodes win the same term.
 */
module ElectionRaces {
  import opened ElectionNode
  import opened ElectionSafety

  const TRIO := Membership({1, 2, 3}, {1, 2, 3})

  function Blank(): NodeState {
    Restart(Identity(0, NOBODY, NOBODY, false), true)
  }

  function Start(): Cluster {
    Cluster(map[1 := Blank(), 2 := Blank(), 3 := Blank()], map[1 := Idle, 2 := Idle, 3 := Idle], {}, {}, {}, {})
  }

  /** How many actions of a run finish on a stale view. */
  ghost function Broken(s: Cluster, m: Membership, acts: seq<Action>): nat
    requires Shaped(s, m) && Run(s, m, acts)
    decreases |acts|
  {
    if acts == [] then 0
    else (if Guarded(s, m, acts[0]) then 0 else 1) + Broken(Apply(s, m, acts[0]), m, acts[1..])
  }

  function Slip(s: Cluster, a: Action): nat
    requires Shaped(s, TRIO) && Enabled(s, TRIO, a)
  {
    if Guarded(s, TRIO, a) then 0 else 1
  }

  /** A run is its first step and the run behind it. */
  lemma {:induction false} RunCons(s: Cluster, m: Membership, a: Action, acts: seq<Action>)
    requires Shaped(s, m) && Enabled(s, m, a) && Run(Apply(s, m, a), m, acts)
    ensures Run(s, m, [a] + acts) && After(s, m, [a] + acts) == After(Apply(s, m, a), m, acts)
    ensures Broken(s, m, [a] + acts) == Broken(Apply(s, m, a), m, acts) + if Guarded(s, m, a) then 0 else 1
  {
    assert ([a] + acts)[1..] == acts;
  }

  lemma {:induction false} FirstThenSnoc(acts: seq<Action>, a: Action)
    requires acts != []
    ensures acts + [a] == [acts[0]] + (acts[1..] + [a])
  {
  }

  lemma {:induction false} Extend(s: Cluster, m: Membership, acts: seq<Action>, a: Action)
    requires Shaped(s, m) && Run(s, m, acts) && Enabled(After(s, m, acts), m, a)
    ensures Run(s, m, acts + [a]) && After(s, m, acts + [a]) == Apply(After(s, m, acts), m, a)
    ensures Broken(s, m, acts + [a]) == Broken(s, m, acts) + if Guarded(After(s, m, acts), m, a) then 0 else 1
    decreases |acts|
  {
    if acts == [] {
      RunCons(s, m, a, []);
      assert acts + [a] == [a] + [];
    } else {
      Extend(Apply(s, m, acts[0]), m, acts[1..], a);
      RunCons(s, m, acts[0], acts[1..] + [a]);
      FirstThenSnoc(acts, a);
    }
  }

  ghost predicate Leads(acts: seq<Action>, s: Cluster, broken: int) {
    && Shaped(Start(), TRIO) && Run(Start(), TRIO, acts)
    && After(Start(), TRIO, acts) == s
    && Broken(Start(), TRIO, acts) == broken
  }

  /** Some run leads from the start to `s`; `broken` guards were ignored on the way. */
  ghost predicate Reached(s: Cluster, broken: int) {
    exists acts :: Leads(acts, s, broken)
  }

  /** A set of (state, number of guards broken so far) pairs that every run stays in. */
  type Track = (Cluster, int) -> bool

  ghost predicate Closed(p: Track) {
    forall s, broken, a :: p(s, broken) && Shaped(s, TRIO) && Enabled(s, TRIO, a)
                       ==> p(Apply(s, TRIO, a), broken + Slip(s, a))
  }

  lemma {:induction false} ReachedIsClosed()
    ensures Closed((s, broken) => Reached(s, broken)) && Reached(Start(), 0)
  {
    assert Leads([], Start(), 0);
    forall s, broken, a | Reached(s, broken) && Shaped(s, TRIO) && Enabled(s, TRIO, a)
      ensures Reached(Apply(s, TRIO, a), broken + Slip(s, a))
    {
      var acts :| Leads(acts, s, broken);
      Extend(Start(), TRIO, acts, a);
      assert Leads(acts + [a], Apply(s, TRIO, a), broken + Slip(s, a));
    }
  }

  lemma {:induction false} Go(p: Track, s: Cluster, broken: int, a: Action) returns (s': Cluster)
    requires Closed(p) && p(s, broken) && Shaped(s, TRIO) && Enabled(s, TRIO, a)
    ensures s' == Apply(s, TRIO, a) && p(s', broken + Slip(s, a))
  {
    s' := Apply(s, TRIO, a);
  }

  lemma {:induction false} GoRaise(p: Track, s: Cluster, broken: int, c: NodeId) returns (s': Cluster)
    requires Closed(p) && p(s, broken) && Shaped(s, TRIO) && Enabled(s, TRIO, Raise(c))
    ensures p(s', broken)
    ensures s' == Put(s, c, ElectionNode.Raise(s.nodes[c], c), Raised(s.nodes[c].term + 1))
  {
    s' := Go(p, s, broken, Raise(c));
  }

  lemma {:induction false} GoPersist(p: Track, s: Cluster, broken: int, c: NodeId) returns (s': Cluster)
    requires Closed(p) && p(s, broken) && Shaped(s, TRIO) && Enabled(s, TRIO, Persist(c))
    ensures var t := s.loops[c].term;
      && p(s', broken + if s.nodes[c].term == t then 0 else 1)
      && s' == Put(s, c, ElectionNode.Persist(s.nodes[c], c, t), Asking(t))
               .(requests := s.requests + {Request(t, c)}, grants := s.grants + {Grant(c, c, t)})
  {
    s' := Go(p, s, broken, Persist(c));
  }

  lemma {:induction false} GoGrant(p: Track, s: Cluster, broken: int, v: NodeId, r: Request) returns (s': Cluster)
    requires Closed(p) && p(s, broken) && Shaped(s, TRIO) && Enabled(s, TRIO, Vote(v, r, true))
    requires Grants(s.nodes[v], v in TRIO.full, r.term, r.candidate, true)
    ensures p(s', broken)
    ensures s' == s.(nodes := s.nodes[v := HandleVote(s.nodes[v], true, r.term, r.candidate, true)],
                     grants := s.grants + {Grant(v, r.candidate, r.term)})
  {
    s' := Go(p, s, broken, Vote(v, r, true));
    assert s.loops[v := s.loops[v]] == s.loops;
  }

  lemma {:induction false} GoWin(p: Track, s: Cluster, broken: int, c: NodeId, v: NodeId) returns (s': Cluster)
    requires Closed(p) && p(s, broken) && Shaped(s, TRIO) && Enabled(s, TRIO, Finish(c, {v}))
    requires s.nodes[c].role == Candidate && s.nodes[c].term == s.loops[c].term
    ensures p(s', broken)
    ensures var t := s.loops[c].term;
      s' == Put(s, c, ElectionNode.Finish(s.nodes[c], c, t, 2, 3), Idle).(wins := s.wins + {Win(t, c, {v, c})})
  {
    assert |TRIO.full| == 3;
    assert {v} + {c} == {v, c};
    s' := Go(p, s, broken, Finish(c, {v}));
  }

  /** `c` opens its next term and asks for votes. */
  lemma {:induction false} Campaign(p: Track, s: Cluster, broken: int, c: NodeId) returns (s': Cluster)
    requires Closed(p) && p(s, broken) && Shaped(s, TRIO) && c in TRIO.full
    requires s.loops[c] == Idle && s.nodes[c].role != Leader
    ensures p(s', broken) && Shaped(s', TRIO)
    ensures var t := s.nodes[c].term + 1;
      && s'.loops == s.loops[c := Asking(t)]
      && s'.nodes == s.nodes[c := ElectionNode.Persist(ElectionNode.Raise(s.nodes[c], c), c, t)]
      && s'.requests == s.requests + {Request(t, c)} && s'.beats == s.beats && s'.wins == s.wins
  {
    var s1 := GoRaise(p, s, broken, c);
    s' := GoPersist(p, s1, broken, c);
  }

  /** `c` opens its next term, gets no answer, and is a follower again. */
  lemma {:induction false} Lose(p: Track, s: Cluster, broken: int, c: NodeId) returns (s': Cluster)
    requires Closed(p) && p(s, broken) && Shaped(s, TRIO) && c in TRIO.full
    requires s.loops[c] == Idle && s.nodes[c].role != Leader
    ensures p(s', broken) && Shaped(s', TRIO)
    ensures s'.loops == s.loops && s'.nodes == s.nodes[c := s'.nodes[c]]
    ensures s'.nodes[c].role == Follower && s'.nodes[c].term == s.nodes[c].term + 1
  {
    var s1 := Campaign(p, s, broken, c);
    assert |TRIO.full| == 3;
    s' := Go(p, s1, broken, Finish(c, {}));
    assert s'.loops == s.loops;
  }

  /** `v` grants `c` its vote and `c` counts a majority. */
  lemma {:induction false} Elect(p: Track, s: Cluster, broken: int, c: NodeId, v: NodeId) returns (s': Cluster)
    requires Closed(p) && p(s, broken) && Shaped(s, TRIO) && c in TRIO.full && v in TRIO.full && c != v
    requires s.loops[c].Asking? && s.nodes[c].role == Candidate && s.nodes[c].term == s.loops[c].term
    requires Request(s.loops[c].term, c) in s.requests
    requires Grants(s.nodes[v], true, s.loops[c].term, c, true)
    ensures p(s', broken) && Shaped(s', TRIO)
    ensures var t := s.loops[c].term;
      && s'.loops == s.loops[c := Idle]
      && s'.nodes == s.nodes[v := HandleVote(s.nodes[v], true, t, c, true)]
                            [c := ElectionNode.Finish(s.nodes[c], c, t, 2, 3)]
      && s'.requests == s.requests && s'.beats == s.beats
      && s'.wins == s.wins + {Win(t, c, {v, c})}
  {
    var s1 := GoGrant(p, s, broken, v, Request(s.loops[c].term, c));
    s' := GoWin(p, s1, broken, c, v);
  }

  /** Node 1 leads term 1 with the vote of node 2 and has decided to send heartbeats. */
  lemma {:induction false} FirstTerm(p: Track) returns (s: Cluster)
    requires Closed(p) && p(Start(), 0)
    ensures p(s, 0) && Shaped(s, TRIO)
    ensures s.loops == map[1 := Beating(1), 2 := Idle, 3 := Idle]
    ensures s.nodes[1].role == Leader && s.nodes[1].term == 1
    ensures s.nodes[2].role == Follower && s.nodes[2].term == 1 && s.nodes[3].role == Follower && s.nodes[3].term == 1
  {
    var s1 := Campaign(p, Start(), 0, 1);
    var s2 := Elect(p, s1, 0, 1, 2);
    var s3 := Go(p, s2, 0, BeatCheck(1));
    s := Go(p, s3, 0, Vote(3, Request(1, 1), false));
  }

  /** Now node 2 leads term 2 with the vote of node 1, and node 3 is a candidate of term 2. */
  lemma {:induction false} TwoTerms(p: Track) returns (s: Cluster)
    requires Closed(p) && p(Start(), 0)
    ensures p(s, 0) && Shaped(s, TRIO)
    ensures s.loops[1] == Beating(1) && s.nodes[1].role == Follower && s.nodes[1].term == 2
    ensures s.loops[3] == Asking(2) && s.nodes[3].role == Candidate && s.nodes[3].term == 2
    ensures s.nodes[2].role == Leader && s.nodes[2].term == 2
    ensures Request(2, 3) in s.requests && Win(2, 2, {1, 2}) in s.wins
  {
    var s1 := FirstTerm(p);
    var s2 := Campaign(p, s1, 0, 2);
    var s3 := Campaign(p, s2, 0, 3);
    s := Elect(p, s3, 0, 2, 1);
  }

  lemma {:induction false} StaleHeartbeat(p: Track) returns (s: Cluster)
    requires Closed(p) && p(Start(), 0)
    ensures p(s, 1) && !OneWinner(s.wins)
  {
    var s0 := TwoTerms(p);
    var s1 := Go(p, s0, 0, SendBeat(1));
    assert s1.nodes == s0.nodes;
    var s2 := Go(p, s1, 1, Heartbeat(2, Beat(2, 1)));
    assert s2.loops[3] == Asking(2) && s2.nodes[3] == s0.nodes[3] && s2.nodes[2].votedFor == NOBODY;
    s := Elect(p, s2, 1, 3, 2);
    assert Win(2, 2, {1, 2}) in s.wins && Win(2, 3, {2, 3}) in s.wins;
  }

  /** Nodes 1 and 3 are candidates of term 2, node 2 has seen nothing yet. */
  lemma {:induction false} TwoCandidates(p: Track) returns (s: Cluster)
    requires Closed(p) && p(Start(), 0)
    ensures p(s, 0) && Shaped(s, TRIO)
    ensures s.loops == map[1 := Asking(2), 2 := Idle, 3 := Asking(2)] && s.nodes[2] == Blank()
    ensures s.nodes[1].role == Candidate && s.nodes[1].term == 2 && Request(2, 1) in s.requests
    ensures s.nodes[3].role == Candidate && s.nodes[3].term == 2 && Request(2, 3) in s.requests
  {
    var s1 := Lose(p, Start(), 0, 1);
    var s2 := Lose(p, s1, 0, 3);
    var s3 := Campaign(p, s2, 0, 1);
    s := Campaign(p, s3, 0, 3);
  }

  /** Node 2 has raised its term to 1 but not written it when it votes for node 1 in term 2. */
  lemma {:induction false} VoteBeforePersist(p: Track) returns (s: Cluster)
    requires Closed(p) && p(Start(), 0)
    ensures p(s, 0) && Shaped(s, TRIO) && Win(2, 1, {2, 1}) in s.wins
    ensures s.loops[2] == Raised(1) && s.nodes[2].term == 2
    ensures s.loops[3] == Asking(2) && s.nodes[3].role == Candidate && s.nodes[3].term == 2
    ensures Request(2, 3) in s.requests
  {
    var s1 := TwoCandidates(p);
    var s2 := GoRaise(p, s1, 0, 2);
    s := Elect(p, s2, 0, 1, 2);
  }

  lemma {:induction false} StalePersist(p: Track) returns (s: Cluster)
    requires Closed(p) && p(Start(), 0)
    ensures p(s, 1) && !OneWinner(s.wins)
  {
    var s1 := VoteBeforePersist(p);
    var s2 := GoPersist(p, s1, 0, 2);
    var s3 := Go(p, s2, 1, Crash(2, true));
    assert s3.nodes[2].term == 1 && s3.nodes[3] == s1.nodes[3] && s3.loops[3] == Asking(2);
    s := Elect(p, s3, 1, 3, 2);
    assert Win(2, 1, {2, 1}) in s.wins && Win(2, 3, {2, 3}) in s.wins;
  }

  lemma {:induction false} StartIsInit()
    ensures ValidMembership(TRIO) && Init(Start(), TRIO)
  {
  }

  lemma {:induction false} RunTo(s: Cluster, broken: int) returns (acts: seq<Action>)
    requires Reached(s, broken)
    ensures Shaped(Start(), TRIO) && Run(Start(), TRIO, acts)
    ensures Broken(Start(), TRIO, acts) == broken && After(Start(), TRIO, acts) == s
  {
    acts :| Leads(acts, s, broken);
  }

  /** A heartbeat built after its sender's term moved on makes the true leader of that term step
      down and forget its own vote, which it then gives to a second winner. */
  lemma {:induction false} StaleHeartbeatElectsTwice() returns (acts: seq<Action>)
    ensures ValidMembership(TRIO) && Init(Start(), TRIO)
    ensures Run(Start(), TRIO, acts) && Broken(Start(), TRIO, acts) == 1
    ensures !OneWinner(After(Start(), TRIO, acts).wins)
  {
    StartIsInit();
    ReachedIsClosed();
    var s := StaleHeartbeat((s, broken) => Reached(s, broken));
    acts := RunTo(s, 1);
  }

  /** Writing a superseded term over a newer vote lets the node vote twice after a crash. */
  lemma {:induction false} StalePersistElectsTwice() returns (acts: seq<Action>)
    ensures ValidMembership(TRIO) && Init(Start(), TRIO)
    ensures Run(Start(), TRIO, acts) && Broken(Start(), TRIO, acts) == 1
    ensures !OneWinner(After(Start(), TRIO, acts).wins)
  {
    StartIsInit();
    ReachedIsClosed();
    var s := StalePersist((s, broken) => Reached(s, broken));
    acts := RunTo(s, 1);
  }
}
