/**
 * One cluster node's election machine: the fields of `Node`, the election part of its
 * `Identity`, and the copy of that identity in node.json.
 *
 * The handlers exist twice.  The functions on `NodeState` are the specification that the
 * cluster-wide proofs use; the class `Node` performs the same updates field by field, in the
 * order of the source, and every method is proved to compute the specified state.
 */
module ElectionNode {

  /** Ids are only ever compared, so numbers stand for the source's strings. */
  type NodeId = nat

  /** The empty string: no vote cast, no leader known. */
  const NOBODY: NodeId := 0

  datatype Role = Follower | Candidate | Leader

  /** The persisted fields that take part in an election. */
  datatype Identity = Identity(term: nat, votedFor: NodeId, leaderId: NodeId, wasLeader: bool)

  /** `id` is the identity in memory, `disk` what the last Save wrote. */
  datatype NodeState = NodeState(
    role: Role, term: nat, votedFor: NodeId, leaderId: NodeId,
    leaderMode: bool, stepping: bool, id: Identity, disk: Identity)

  datatype VoteReply = VoteReply(term: nat, granted: bool)

  function Save(n: NodeState): NodeState {
    n.(disk := n.id)
  }

  /** A process start: role follower, term and vote as node.json has them. */
  function Restart(disk: Identity, leaderMode: bool): NodeState {
    NodeState(Follower, disk.term, disk.votedFor, disk.leaderId, leaderMode, false, disk, disk)
  }

  function StepDown(n: NodeState): NodeState {
    var d := n.(role := Follower);
    if n.leaderMode && !n.stepping
    then Save(d.(stepping := true, id := d.id.(wasLeader := false)))
    else d
  }

  /** First half of a campaign: a new term and a vote for oneself, in memory only. */
  function Raise(n: NodeState, self: NodeId): NodeState {
    n.(role := Candidate, term := n.term + 1, votedFor := self)
  }

  /** Second half: the term chosen by `Raise` and the own vote go to disk. */
  function Persist(n: NodeState, self: NodeId, term: nat): NodeState {
    Save(n.(id := n.id.(term := term, votedFor := self)))
  }

  predicate Elected(n: NodeState, term: nat, votes: nat, voters: nat) {
    n.role == Candidate && n.term == term && votes * 2 > (if voters == 0 then 1 else voters)
  }

  /** The count at the end of a campaign. */
  function Finish(n: NodeState, self: NodeId, term: nat, votes: nat, voters: nat): NodeState {
    if n.role != Candidate || n.term != term then n
    else if !Elected(n, term, votes, voters) then n.(role := Follower)
    else
      var l := n.(role := Leader, leaderId := self);
      if !n.leaderMode && !n.stepping
      then Save(l.(stepping := true, id := l.id.(leaderId := self, wasLeader := true)))
      else l
  }

  function WithLeader(n: NodeState, leader: NodeId): NodeState {
    n.(leaderId := leader, id := n.id.(leaderId := leader))
  }

  function ObserveTerm(n: NodeState, term: nat, leader: NodeId): NodeState {
    var t :=
      if term > n.term then
        var u := Save(n.(term := term, votedFor := NOBODY, id := n.id.(term := term, votedFor := NOBODY)));
        if n.role == Leader then StepDown(u) else u.(role := Follower)
      else n;
    if leader != NOBODY then WithLeader(t, leader) else t
  }

  /** The node once a vote request of term `term` has been looked at, before the vote itself. */
  function Admit(n: NodeState, term: nat): NodeState {
    if term > n.term then
      var u := n.(term := term, votedFor := NOBODY, id := n.id.(term := term, votedFor := NOBODY));
      (if n.role == Leader then StepDown(u) else u).(role := Follower)
    else n
  }

  predicate Grants(n: NodeState, isFull: bool, term: nat, candidate: NodeId, upToDate: bool) {
    && term >= n.term
    && (Admit(n, term).votedFor == NOBODY || Admit(n, term).votedFor == candidate)
    && upToDate && isFull
  }

  function HandleVote(n: NodeState, isFull: bool, term: nat, candidate: NodeId, upToDate: bool): NodeState {
    if term < n.term then n
    else
      var a := Admit(n, term);
      Save(if Grants(n, isFull, term, candidate, upToDate)
           then a.(votedFor := candidate, id := a.id.(votedFor := candidate))
           else a)
  }

  /** Note that a candidate or leader loses its vote even when the terms are equal, and that
      the persisted vote stays.  Saving is a later step, outside the lock. */
  function HandleHeartbeat(n: NodeState, self: NodeId, term: nat, leader: NodeId): NodeState {
    if term < n.term then n
    else
      var t :=
        if term > n.term || n.role != Follower then
          var d := if n.role == Leader && leader != self then StepDown(n) else n;
          d.(term := term, votedFor := NOBODY, role := Follower, id := d.id.(term := term))
        else n;
      WithLeader(t, leader)
  }

  class Node {
    const self: NodeId
    const isFull: bool
    var role: Role
    var term: nat
    var votedFor: NodeId
    var leaderId: NodeId
    var leaderMode: bool
    var stepping: bool
    var id: Identity
    var disk: Identity

    ghost function State(): NodeState
      reads this
    {
      NodeState(role, term, votedFor, leaderId, leaderMode, stepping, id, disk)
    }

    constructor (self: NodeId, isFull: bool, loaded: Identity, leaderMode: bool)
      ensures this.self == self && this.isFull == isFull
      ensures State() == Restart(loaded, leaderMode)
    {
      this.self, this.isFull := self, isFull;
      role, term, votedFor, leaderId := Follower, loaded.term, loaded.votedFor, loaded.leaderId;
      this.leaderMode, stepping := leaderMode, false;
      id, disk := loaded, loaded;
    }

    method SaveIdentity()
      modifies this`disk
      ensures State() == Save(old(State()))
    {
      disk := id;
    }

    method StepDownLocked()
      modifies this
      ensures State() == StepDown(old(State()))
      ensures role == Follower && term == old(term) && votedFor == old(votedFor)
      ensures if old(leaderMode && !stepping) then stepping && disk == id && !disk.wasLeader else disk == old(disk)
    {
      role := Follower;
      if leaderMode && !stepping {
        stepping := true;
        id := id.(wasLeader := false);
        SaveIdentity();
      }
    }

    method RaiseTerm() returns (campaign: nat)
      modifies this
      ensures State() == Raise(old(State()), self) && campaign == term
      ensures role == Candidate && term == old(term) + 1 && votedFor == self && disk == old(disk)
    {
      role := Candidate;
      term := term + 1;
      votedFor := self;
      campaign := term;
    }

    method PersistCampaign(campaign: nat)
      modifies this
      ensures State() == Persist(old(State()), self, campaign)
      ensures disk == id && disk.term == campaign && disk.votedFor == self && term == old(term)
    {
      id := id.(term := campaign, votedFor := self);
      SaveIdentity();
    }

    method FinishCampaign(campaign: nat, votes: nat, counted: nat) returns (won: bool)
      modifies this
      ensures State() == Finish(old(State()), self, campaign, votes, counted)
      ensures won == Elected(old(State()), campaign, votes, counted)
      ensures won <==> old(role) == Candidate && old(term) == campaign && votes > counted / 2
      ensures won ==> role == Leader && leaderId == self
      ensures won && old(!leaderMode && !stepping) ==> stepping && disk == id && id.wasLeader && id.leaderId == self
      ensures !won ==> role == if old(role) == Candidate && old(term) == campaign then Follower else old(role)
    {
      var voters := if counted == 0 then 1 else counted;
      won := false;
      if role != Candidate || term != campaign {
        return;
      }
      if votes * 2 > voters {
        won := true;
        role := Leader;
        leaderId := self;
        if !leaderMode && !stepping {
          stepping := true;
          id := id.(leaderId := self, wasLeader := true);
          SaveIdentity();
        }
      } else {
        role := Follower;
      }
    }

    method ObserveTermLocked(seen: nat, leader: NodeId)
      modifies this
      ensures State() == ObserveTerm(old(State()), seen, leader)
      ensures seen > old(term) ==>
        term == disk.term == seen && votedFor == disk.votedFor == NOBODY && role == Follower
      ensures seen <= old(term) ==> term == old(term) && votedFor == old(votedFor) && role == old(role)
      ensures leader != NOBODY ==> leaderId == id.leaderId == leader
    {
      if seen > term {
        term, votedFor := seen, NOBODY;
        id := id.(term := seen, votedFor := NOBODY);
        SaveIdentity();
        if role == Leader {
          StepDownLocked();
        } else {
          role := Follower;
        }
      }
      if leader != NOBODY {
        leaderId := leader;
        id := id.(leaderId := leader);
      }
    }

    method OnVote(reqTerm: nat, candidate: NodeId, upToDate: bool) returns (reply: VoteReply)
      modifies this
      ensures State() == HandleVote(old(State()), isFull, reqTerm, candidate, upToDate)
      ensures reply == VoteReply(term, Grants(old(State()), isFull, reqTerm, candidate, upToDate))
      ensures reply.granted <==>
        && reqTerm >= old(term) && upToDate && isFull
        && (reqTerm > old(term) || old(votedFor) == NOBODY || old(votedFor) == candidate)
      ensures reqTerm < old(term) ==> State() == old(State())
      ensures reqTerm >= old(term) ==> term == reqTerm && disk == id
      ensures reply.granted ==> votedFor == id.votedFor == candidate
      ensures reqTerm > old(term) ==> role == Follower && (!reply.granted ==> votedFor == id.votedFor == NOBODY)
      ensures reqTerm == old(term) ==> role == old(role) && (!reply.granted ==> votedFor == old(votedFor))
    {
      reply := VoteReply(term, false);
      if reqTerm < term {
        return;
      }
      if reqTerm > term {
        term, votedFor := reqTerm, NOBODY;
        id := id.(term := reqTerm, votedFor := NOBODY);
        if role == Leader {
          StepDownLocked();
        }
        role := Follower;
      }
      if (votedFor == NOBODY || votedFor == candidate) && upToDate && isFull {
        votedFor := candidate;
        id := id.(votedFor := candidate);
        reply := reply.(granted := true);
      }
      reply := reply.(term := term);
      SaveIdentity();
    }

    method OnHeartbeat(hbTerm: nat, leader: NodeId)
      modifies this
      ensures State() == HandleHeartbeat(old(State()), self, hbTerm, leader)
      ensures hbTerm < old(term) ==> State() == old(State())
      ensures hbTerm >= old(term) ==> term == hbTerm && role == Follower && leaderId == id.leaderId == leader
      ensures hbTerm >= old(term) ==>
        votedFor == (if hbTerm > old(term) || old(role) != Follower then NOBODY else old(votedFor))
      ensures id.votedFor == old(id.votedFor) && (disk.votedFor == old(disk.votedFor) || disk.votedFor == id.votedFor)
    {
      if hbTerm < term {
        return;
      }
      if hbTerm > term || role != Follower {
        if role == Leader && leader != self {
          StepDownLocked();
        }
        term, votedFor, role := hbTerm, NOBODY, Follower;
        id := id.(term := hbTerm);
      }
      leaderId := leader;
      id := id.(leaderId := leader);
    }
  }
}
