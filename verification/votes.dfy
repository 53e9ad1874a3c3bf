/** The steps of an election up to, and not including, the win. */
module Votes {
  import opened RaftTypes
  import opened LogMerge
  import opened Commitment
  import opened Handlers
  import opened Cluster
  import opened Invariant
  import opened Growth

  // ----- a node changes, votes and calls do not -----

  ghost predicate SameHeads(s: State, s': State) {
    && s'.reigns.Keys == s.reigns.Keys
    && forall t | t in s.reigns :: s'.reigns[t].leader == s.reigns[t].leader
                                 && s'.reigns[t].quorum == s.reigns[t].quorum
  }

  ghost predicate KeepsVote(s: State, n: string, st: NodeState)
    requires n in s.nodes
  {
    var o := s.nodes[n];
    && o.term <= st.term
    && (st.role == Candidate ==>
          o.role == Candidate && st.term == o.term && st.votes == o.votes && st.vote == o.vote && st.log == o.log)
    && (st.term == o.term ==>
          && (st.vote == o.vote || (o.term in s.reigns && n !in s.reigns[o.term].quorum))
          && (st.role == o.role || st.role == Follower))
  }

  lemma SameBacks(s: State, s': State, p: string, c: string, t: nat)
    requires s'.calls == s.calls && s'.stood == s.stood
    ensures Backs(s', p, c, t) == Backs(s, p, c, t)
  {
  }

  lemma OpenKept(s: State, s': State, n: string)
    requires StoodOk(s) && CallsOk(s) && OpenBallotsOk(s) && OneNode(s, s', n) && KeepsVote(s, n, s'.nodes[n])
    requires s'.calls == s.calls && s'.stood == s.stood && SameHeads(s, s')
    ensures OpenBallotsOk(s')
  {
    forall p, c, t: nat | Backs(s', p, c, t) && t !in s'.reigns && p in s'.nodes && s'.nodes[p].term == t
      ensures s'.nodes[p].vote == c
    {
      SameBacks(s, s', p, c, t);
    }
    forall p, c, d, t: nat | Backs(s', p, c, t) && Backs(s', p, d, t) && t !in s'.reigns ensures c == d {
      SameBacks(s, s', p, c, t);
      SameBacks(s, s', p, d, t);
    }
  }

  lemma ClosedKept(s: State, s': State, n: string)
    requires ClosedBallotsOk(s) && OneNode(s, s', n) && KeepsVote(s, n, s'.nodes[n])
    requires s'.calls == s.calls && s'.stood == s.stood && SameHeads(s, s')
    ensures ClosedBallotsOk(s')
  {
    forall t, q | t in s'.reigns && q in s'.reigns[t].quorum ensures QuorumBallotOk(s', t, q) {
      assert QuorumBallotOk(s, t, q);
      SameBacks(s, s', q, s.reigns[t].leader, t);
      forall c | Backs(s', q, c, t) ensures c == s.reigns[t].leader { SameBacks(s, s', q, c, t); }
    }
  }

  lemma CallsKept(s: State, s': State, n: string)
    requires CallsOk(s) && OneNode(s, s', n) && KeepsVote(s, n, s'.nodes[n])
    requires s'.calls == s.calls && s'.stood == s.stood
    ensures CallsOk(s')
  {
    assert s'.nodes.Keys == s.nodes.Keys;
    forall id | id in s'.calls ensures CallOk(s', id) { assert CallOk(s, id); }
  }

  lemma StoodKept(s: State, s': State, n: string)
    requires StoodOk(s) && CandidatesOk(s) && OneNode(s, s', n) && KeepsVote(s, n, s'.nodes[n])
    requires s'.calls == s.calls && s'.stood == s.stood
    ensures StoodOk(s') && CandidatesOk(s')
  {
    assert s'.nodes.Keys == s.nodes.Keys;
    forall c | c in s'.nodes && s'.nodes[c].role == Candidate ensures CandidateOk(s', c) { assert CandidateOk(s, c); }
  }

  lemma VotesKept(s: State, s': State, n: string)
    requires VoteInv(s) && OneNode(s, s', n) && KeepsVote(s, n, s'.nodes[n])
    requires s'.calls == s.calls && s'.stood == s.stood && SameHeads(s, s')
    ensures VoteInv(s')
  {
    hide StoodOk, CallsOk, CandidatesOk, OpenBallotsOk, ClosedBallotsOk, KeepsVote, SameHeads;
    StoodKept(s, s', n);
    CallsKept(s, s', n);
    OpenKept(s, s', n);
    ClosedKept(s, s', n);
  }

  // ----- the moves every handler starts with -----

  ghost predicate Bumps(s: State, n: string, t: nat) {
    n in s.nodes && t > s.nodes[n].term
  }

  ghost predicate StepsDown(s: State, n: string) {
    n in s.nodes && s.nodes[n].role != Follower
    && s.nodes[n].term in s.reigns && s.reigns[s.nodes[n].term].leader != n
  }

  lemma ResetNode(st: NodeState, peers: seq<string>, t: nat)
    requires NodeOk(st, peers) && st.term <= t
    ensures NodeOk(ResetToFollower(st, t), peers) && QuietNode(st, ResetToFollower(st, t))
  {
  }

  lemma QuietVotesKeep(s: State, s': State, n: string)
    requires Inv(s) && OneNode(s, s', n) && QuietNode(s.nodes[n], s'.nodes[n]) && KeepsVote(s, n, s'.nodes[n])
    requires s'.appends == s.appends && s'.acks == s.acks && s'.reigns == s.reigns
    requires s'.calls == s.calls && s'.stood == s.stood && NodeOk(s'.nodes[n], s.peers[n])
    ensures Inv(s')
  {
    hide BaseInv, VoteInv, LogInv, NodeOk, Quiet;
    assert s'.nodes.Keys == s.nodes.Keys;
    VotesKept(s, s', n);
    QuietKeeps(s, s', n);
  }

  lemma ResetVote(s: State, n: string, t: nat)
    requires ClosedBallotsOk(s) && (Bumps(s, n, t) || (StepsDown(s, n) && t == s.nodes[n].term))
    ensures n in s.nodes && KeepsVote(s, n, ResetToFollower(s.nodes[n], t))
  {
  }

  /** The node may take the place of `n` with votes, messages and history as they are. */
  ghost predicate Replaces(s: State, n: string, st: NodeState) {
    && n in s.nodes && n in s.peers && QuietNode(s.nodes[n], st) && KeepsVote(s, n, st) && NodeOk(st, s.peers[n])
  }

  lemma ReplacingKeeps(s: State, n: string, st: NodeState)
    requires Inv(s) && Replaces(s, n, st)
    ensures Inv(PutNode(s, n, st))
  {
    hide Inv, QuietNode, KeepsVote, NodeOk;
    QuietVotesKeep(s, PutNode(s, n, st), n);
  }

  lemma ResetReplaces(s: State, n: string, t: nat)
    requires Inv(s) && (Bumps(s, n, t) || (StepsDown(s, n) && t == s.nodes[n].term))
    ensures Replaces(s, n, ResetToFollower(s.nodes[n], t))
  {
    hide VoteInv, LogInv;
    assert ClosedBallotsOk(s) by { VotesClosed(s); }
    ResetVote(s, n, t);
    ResetNode(s.nodes[n], s.peers[n], t);
  }

  lemma VotesClosed(s: State)
    requires VoteInv(s)
    ensures ClosedBallotsOk(s)
  {
  }

  /** A node in a later term, or a candidate that hears the leader of its term (D7). */
  lemma ResetKeeps(s: State, n: string, t: nat)
    requires Inv(s) && (Bumps(s, n, t) || (StepsDown(s, n) && t == s.nodes[n].term))
    ensures Inv(PutNode(s, n, ResetToFollower(s.nodes[n], t)))
  {
    hide Inv;
    ResetReplaces(s, n, t);
    ReplacingKeeps(s, n, ResetToFollower(s.nodes[n], t));
  }

  lemma RestartKeeps(s: State, n: string)
    requires Inv(s) && n in s.nodes
    ensures n in s.peers && Inv(PutNode(s, n, Restart(Repaired, s.nodes[n], s.peers[n])))
  {
    hide VoteInv, LogInv;
    ReplacingKeeps(s, n, Restart(Repaired, s.nodes[n], s.peers[n]));
  }

  // ----- standing for election -----

  lemma PeerIsOther(s: State, n: string, p: string)
    requires ConfigOk(s) && n in s.nodes
    ensures p in s.peers[n] <==> p in s.nodes && p != n
  {
    assert PeersOk(n, s.peers[n], s.nodes.Keys);
    var others := s.nodes.Keys - {n};
    assert p in others <==> p in (set q | q in s.peers[n]);
  }

  /** A node stands in the next term: its vote is its own, and it opens calls without answers. */
  ghost predicate Standing(s: State, s': State, n: string) {
    && OneNode(s, s', n) && s'.nodes[n] == Stand(s.nodes[n], n)
    && s'.reigns == s.reigns && s'.appends == s.appends && s'.acks == s.acks
    && s'.stood == s.stood[(n, s.nodes[n].term + 1) := s.candidacies]
    && (n, s.nodes[n].term + 1) !in s.stood
    && (forall id | id in s.calls ::
          id in s'.calls && s'.calls[id] == s.calls[id] && (id.candidate, id.term) != (n, s.nodes[n].term + 1))
    && (forall id | id in s'.calls && id !in s.calls ::
          id.candidate == n && id.term == s.nodes[n].term + 1
          && s'.calls[id] == Call(VoteRequest(s'.nodes[n], n), None, [], false)
          && id.candidacy == s.candidacies && id.voter in s.nodes && id.voter != n)
  }

  lemma StandsStanding(s: State, n: string)
    requires ConfigOk(s) && StoodOk(s) && CallsOk(s) && n in s.nodes
    ensures Standing(s, Stands(s, n), n)
  {
    var asked := NewCalls(s.peers[n], n, Stand(s.nodes[n], n), s.candidacies);
    forall id | id in s.calls ensures id !in asked && (id.candidate, id.term) != (n, s.nodes[n].term + 1) {
      assert CallOk(s, id);
    }
    forall id | id in asked ensures id.voter in s.nodes && id.voter != n { PeerIsOther(s, n, id.voter); }
  }

  lemma StandCalls(s: State, s': State, n: string)
    requires StoodOk(s) && CallsOk(s) && Standing(s, s', n)
    ensures StoodOk(s') && CallsOk(s')
  {
    assert s'.nodes.Keys == s.nodes.Keys;
    forall id | id in s'.calls ensures CallOk(s', id) {
      if id in s.calls { assert CallOk(s, id); }
    }
  }

  lemma StandBacks(s: State, s': State, n: string, p: string, c: string, t: nat)
    requires Standing(s, s', n)
    ensures Backs(s', p, c, t) <==> Backs(s, p, c, t) || (p == c == n && t == s.nodes[n].term + 1)
  {
  }

  lemma StandTally(s: State, s': State, n: string, c: string, t: nat)
    requires Standing(s, s', n)
    ensures Tally(s'.calls, c, t) == Tally(s.calls, c, t)
  {
  }

  lemma StandCandidate(s: State, s': State, n: string, c: string)
    requires StoodOk(s) && CallsOk(s) && Standing(s, s', n) && c in s.nodes && (c == n || CandidateOk(s, c))
    ensures CandidateOk(s', c)
  {
    StandTally(s, s', n, c, s'.nodes[c].term);
  }

  lemma StandCandidates(s: State, s': State, n: string)
    requires StoodOk(s) && CallsOk(s) && CandidatesOk(s) && Standing(s, s', n)
    ensures CandidatesOk(s')
  {
    forall c | c in s'.nodes && s'.nodes[c].role == Candidate ensures CandidateOk(s', c) {
      assert s.nodes[c].role == Candidate ==> CandidateOk(s, c);
      StandCandidate(s, s', n, c);
    }
  }

  lemma StandOpen(s: State, s': State, n: string)
    requires StoodOk(s) && CallsOk(s) && OpenBallotsOk(s) && Standing(s, s', n)
    ensures OpenBallotsOk(s')
  {
    forall p, c, t: nat | Backs(s', p, c, t) && t !in s'.reigns && p in s'.nodes && s'.nodes[p].term == t
      ensures s'.nodes[p].vote == c
    {
      StandBacks(s, s', n, p, c, t);
    }
    forall p, c, d, t: nat | Backs(s', p, c, t) && Backs(s', p, d, t) && t !in s'.reigns ensures c == d {
      StandBacks(s, s', n, p, c, t);
      StandBacks(s, s', n, p, d, t);
    }
  }

  lemma StandClosed(s: State, s': State, n: string)
    requires ClosedBallotsOk(s) && Standing(s, s', n)
    ensures ClosedBallotsOk(s')
  {
    forall t, q | t in s'.reigns && q in s'.reigns[t].quorum ensures QuorumBallotOk(s', t, q) {
      assert QuorumBallotOk(s, t, q);
      StandBacks(s, s', n, q, s.reigns[t].leader, t);
      forall c | Backs(s', q, c, t) ensures c == s.reigns[t].leader { StandBacks(s, s', n, q, c, t); }
    }
  }

  lemma StandVotes(s: State, s': State, n: string)
    requires VoteInv(s) && Standing(s, s', n)
    ensures VoteInv(s')
  {
    StandCalls(s, s', n);
    StandCandidates(s, s', n);
    StandOpen(s, s', n);
    StandClosed(s, s', n);
  }

  lemma StandingNode(s: State, s': State, n: string)
    requires ConfigOk(s) && NodesOk(s) && Standing(s, s', n)
    ensures NodeOk(s'.nodes[n], s.peers[n]) && QuietNode(s.nodes[n], s'.nodes[n]) && SameBallotLogs(s, s')
    ensures OneNode(s, s', n) && s'.appends == s.appends && s'.acks == s.acks && s'.reigns == s.reigns
  {
    assert NodeOk(s.nodes[n], s.peers[n]);
  }

  lemma StandingKeeps(s: State, s': State, n: string)
    requires Inv(s) && Standing(s, s', n)
    ensures Inv(s')
  {
    hide VoteInv, LogInv, Standing, NodesOk, NodeOk;
    StandVotes(s, s', n);
    StandingNode(s, s', n);
    QuietKeeps(s, s', n);
  }

  lemma StandKeeps(s: State, n: string)
    requires Inv(s) && n in s.nodes && s.nodes[n].role != Leader
    ensures Inv(Stands(s, n))
  {
    StandsStanding(s, n);
    StandingKeeps(s, Stands(s, n), n);
  }

  // ----- answering a vote request of a term already entered -----

  /** The voter grants in its own term a vote that was free, or changes nothing. */
  ghost predicate Answers(s: State, s': State, id: CallId) {
    && id in s.calls && id in s'.calls && !s.calls[id].delivered && s.calls[id].reply.None?
    && OneNode(s, s', id.voter)
    && s'.stood == s.stood && s'.reigns == s.reigns && s'.appends == s.appends && s'.acks == s.acks
    && s'.calls == s.calls[id := s'.calls[id]]
    && s'.calls[id].req == s.calls[id].req && !s'.calls[id].delivered && s'.calls[id].reply.Some?
    && var st := s.nodes[id.voter];
       if Granted(s'.calls[id]) then
         && s'.nodes[id.voter] == st.(vote := id.candidate, disk := st.disk.(vote := id.candidate))
         && s'.calls[id].voterLog == st.log && UpToDate(Repaired, s.calls[id].req, st.log)
         && s'.calls[id].reply.value.term == id.term == st.term
         && (st.vote == "" || st.vote == id.candidate) && st.role != Candidate
       else s'.nodes == s.nodes
  }

  /** A candidate has voted for itself, so a node that grants is not one. */
  lemma GrantsIsNoCandidate(s: State, id: CallId)
    requires CallsOk(s) && CandidatesOk(s) && "" !in s.nodes && id in s.calls && id.voter in s.nodes
    requires s.nodes[id.voter].vote == "" || s.nodes[id.voter].vote == s.calls[id].req.candidate
    ensures s.nodes[id.voter].role != Candidate
  {
    assert CallOk(s, id);
  }

  lemma VotesAnswer(s: State, id: CallId)
    requires ConfigOk(s) && CallsOk(s) && CandidatesOk(s) && Enabled(Repaired, s, VoteArrives(id))
    requires s.calls[id].req.term <= s.nodes[id.voter].term
    ensures Answers(s, Cluster.Votes(Repaired, s, id), id)
  {
    var st, req := s.nodes[id.voter], s.calls[id].req;
    assert CallOk(s, id);
    if Grants(Repaired, st, req) {
      GrantsIsNoCandidate(s, id);
    } else {
      assert s.nodes[id.voter := st] == s.nodes;
    }
  }

  lemma AnswerTally(s: State, s': State, id: CallId, c: string, t: nat)
    requires Answers(s, s', id)
    ensures Tally(s'.calls, c, t) == Tally(s.calls, c, t)
  {
  }

  lemma AnswerBacks(s: State, s': State, id: CallId, p: string, c: string, t: nat)
    requires Answers(s, s', id) && id.candidate != id.voter
    requires (id.candidate, id.term) in s.stood && s.stood[(id.candidate, id.term)] == id.candidacy
    ensures Backs(s', p, c, t) <==>
              Backs(s, p, c, t) || (Granted(s'.calls[id]) && p == id.voter && c == id.candidate && t == id.term)
  {
  }

  lemma AnswerCalls(s: State, s': State, id: CallId)
    requires StoodOk(s) && CallsOk(s) && Answers(s, s', id) && Sorted(s.nodes[id.voter].log)
    ensures StoodOk(s') && CallsOk(s')
  {
    assert s'.nodes.Keys == s.nodes.Keys;
    forall i | i in s'.calls ensures CallOk(s', i) { assert CallOk(s, i); }
  }

  lemma AnswerCandidates(s: State, s': State, id: CallId)
    requires CandidatesOk(s) && Answers(s, s', id)
    ensures CandidatesOk(s')
  {
    forall c | c in s'.nodes && s'.nodes[c].role == Candidate ensures CandidateOk(s', c) {
      AnswerTally(s, s', id, c, s'.nodes[c].term);
    }
  }

  lemma AnswerOpen(s: State, s': State, id: CallId)
    requires ConfigOk(s) && StoodOk(s) && CallsOk(s) && OpenBallotsOk(s) && Answers(s, s', id)
    ensures OpenBallotsOk(s')
  {
    assert CallOk(s, id);
    forall p, c, t: nat | Backs(s', p, c, t) && t !in s'.reigns && p in s'.nodes && s'.nodes[p].term == t
      ensures s'.nodes[p].vote == c
    {
      AnswerBacks(s, s', id, p, c, t);
    }
    forall p, c, d, t: nat | Backs(s', p, c, t) && Backs(s', p, d, t) && t !in s'.reigns ensures c == d {
      AnswerBacks(s, s', id, p, c, t);
      AnswerBacks(s, s', id, p, d, t);
    }
  }

  lemma AnswerClosed(s: State, s': State, id: CallId)
    requires ConfigOk(s) && StoodOk(s) && CallsOk(s) && ClosedBallotsOk(s) && Answers(s, s', id)
    ensures ClosedBallotsOk(s')
  {
    assert CallOk(s, id);
    forall t, q | t in s'.reigns && q in s'.reigns[t].quorum ensures QuorumBallotOk(s', t, q) {
      assert QuorumBallotOk(s, t, q);
      var leader := s.reigns[t].leader;
      AnswerBacks(s, s', id, q, leader, t);
      forall c | Backs(s', q, c, t) ensures c == leader { AnswerBacks(s, s', id, q, c, t); }
    }
  }

  lemma AnswerQuiet(s: State, s': State, id: CallId)
    requires ConfigOk(s) && NodesOk(s) && Answers(s, s', id)
    ensures ConfigOk(s') && NodesOk(s') && Quiet(s, s')
  {
    assert NodeOk(s.nodes[id.voter], s.peers[id.voter]);
    assert NodeOk(s'.nodes[id.voter], s.peers[id.voter]);
    OneNodeConfig(s, s', id.voter);
    OneNodeStill(s, s', id.voter);
  }

  lemma AnswerBallotLogs(s: State, s': State, id: CallId)
    requires HeldOk(s) && BallotLogsOk(s) && Answers(s, s', id) && Quiet(s, s')
    ensures BallotLogsOk(s')
  {
    StillGrows(s, s');
    forall i, t: nat, n | i in s'.calls && Granted(s'.calls[i]) && t < i.term
                       && Point(s', t, n) && Acked(s', i.voter, t, n) && AllLater(s', t, n)
      ensures Upto(s', t, n) <= s'.calls[i].voterLog
    {
      assert Point(s, t, n);
      AllLaterBefore(s, s', t, n);
      if i != id { assert s'.calls[i] == s.calls[i]; }
    }
  }

  lemma AnswerVotes(s: State, s': State, id: CallId)
    requires ConfigOk(s) && NodesOk(s) && VoteInv(s) && Answers(s, s', id)
    ensures VoteInv(s')
  {
    assert NodeOk(s.nodes[id.voter], s.peers[id.voter]);
    AnswerCalls(s, s', id);
    AnswerCandidates(s, s', id);
    AnswerOpen(s, s', id);
    AnswerClosed(s, s', id);
  }

  lemma AnswerKeeps(s: State, s': State, id: CallId)
    requires Inv(s) && Answers(s, s', id)
    ensures Inv(s')
  {
    AnswerVotes(s, s', id);
    AnswerQuiet(s, s', id);
    AnswerBallotLogs(s, s', id);
    StillReigns(s, s');
    QuietLogInv(s, s');
  }

  lemma VotesAfterReset(s: State, id: CallId, t: State)
    requires Enabled(Repaired, s, VoteArrives(id)) && s.calls[id].req.term > s.nodes[id.voter].term
    requires t == PutNode(s, id.voter, ResetToFollower(s.nodes[id.voter], s.calls[id].req.term))
    ensures Cluster.Votes(Repaired, t, id) == Cluster.Votes(Repaired, s, id)
  {
    assert t.calls == s.calls && t.nodes[id.voter].log == s.nodes[id.voter].log;
    var a, b := Cluster.Votes(Repaired, t, id), Cluster.Votes(Repaired, s, id);
    assert a.nodes == b.nodes;
  }

  lemma VotesAnswerInv(s: State, id: CallId)
    requires Inv(s) && Enabled(Repaired, s, VoteArrives(id)) && s.calls[id].req.term <= s.nodes[id.voter].term
    ensures Answers(s, Cluster.Votes(Repaired, s, id), id)
  {
    VotesAnswer(s, id);
  }

  lemma VoteArrivesKeeps(s: State, id: CallId)
    requires Inv(s) && Enabled(Repaired, s, VoteArrives(id))
    ensures Inv(Cluster.Votes(Repaired, s, id))
  {
    hide Inv;
    var term := s.calls[id].req.term;
    var t := s;
    if term > s.nodes[id.voter].term {
      ResetKeeps(s, id.voter, term);
      t := PutNode(s, id.voter, ResetToFollower(s.nodes[id.voter], term));
      VotesAfterReset(s, id, t);
    }
    VotesAnswerInv(t, id);
    AnswerKeeps(t, Cluster.Votes(Repaired, t, id), id);
  }
}
