/** Counting votes and winning. The win carries the two classical arguments: no second leader
    in a term, and nothing committed is missing from a new leader's log. */
module Elections {
  import opened RaftTypes
  import opened LogMerge
  import opened Commitment
  import opened Handlers
  import opened Cluster
  import opened Invariant
  import opened Growth
  import opened Votes

  // ----- sizes and quorums -----

  lemma {:induction false} DistinctSize(peers: seq<string>)
    requires Distinct(peers)
    ensures |set p | p in peers| == |peers|
  {
    if peers != [] {
      var tail := peers[1..];
      DistinctSize(tail);
      assert forall p :: p in peers <==> p == peers[0] || p in tail;
      assert peers[0] !in tail;
      assert (set p | p in peers) == (set p | p in tail) + {peers[0]};
    }
  }

  lemma ClusterSize(s: State, n: string)
    requires ConfigOk(s) && n in s.nodes
    ensures |s.peers[n]| + 1 == |s.nodes.Keys|
  {
    assert PeersOk(n, s.peers[n], s.nodes.Keys);
    DistinctSize(s.peers[n]);
  }

  /** Two majorities of the same cluster share a node. */
  lemma QuorumsMeet(servers: set<string>, a: set<string>, b: set<string>) returns (q: string)
    requires Majority(servers, a) && Majority(servers, b)
    ensures q in a && q in b
  {
    var meet := a * b;
    assert |a + b| + |meet| == |a| + |b|;
    assert a + b <= servers;
    SubsetSize(a + b, servers);
    q :| q in meet;
  }

  lemma {:induction false} SubsetSize<T>(a: set<T>, b: set<T>)
    requires a <= b
    ensures |a| <= |b|
    decreases |b|
  {
    if x :| x in a {
      SubsetSize(a - {x}, b - {x});
    }
  }

  // ----- delivering a reply -----

  ghost predicate Delivers(s: State, s': State, id: CallId) {
    && id in s.calls && s.calls[id].reply.Some? && !s.calls[id].delivered
    && s'.calls == s.calls[id := s.calls[id].(delivered := true)]
    && OneNode(s, s', id.candidate)
    && s'.stood == s.stood && s'.appends == s.appends && s'.acks == s.acks
  }

  ghost predicate IsCounted(s: State, id: CallId)
    requires id in s.calls && id.candidate in s.nodes
  {
    var st := s.nodes[id.candidate];
    st.role == Candidate && st.term == id.term && Granted(s.calls[id])
  }

  ghost predicate Ignores(s: State, s': State, id: CallId) {
    Delivers(s, s', id) && s'.nodes == s.nodes && s'.reigns == s.reigns && !IsCounted(s, id)
  }

  ghost predicate Counts(s: State, s': State, id: CallId) {
    && Delivers(s, s', id) && s'.reigns == s.reigns && IsCounted(s, id)
    && s'.nodes[id.candidate] == s.nodes[id.candidate].(votes := s.nodes[id.candidate].votes + 1)
  }

  /** Leader now; no peer is known to match, and every next index lies in the log. */
  ghost predicate Promoted(x: NodeState, y: NodeState, peers: seq<string>) {
    && y == x.(role := Leader, votes := 0, next := y.next, matched := y.matched)
    && forall p | p in peers :: Get(y.matched, p) == -1 && 0 <= Get(y.next, p) <= |y.log|
  }

  ghost predicate Winning(s: State, s': State, id: CallId) {
    && Delivers(s, s', id) && IsCounted(s, id) && id.candidate in s.peers
    && var st := s.nodes[id.candidate];
       var peers := s.peers[id.candidate];
       && (st.votes + 1) * 2 > |peers| + 1
       && Promoted(st, s'.nodes[id.candidate], peers)
       && s'.reigns == s.reigns[st.term := Reign(id.candidate, Tally(s'.calls, id.candidate, st.term), st.log, st.log)]
  }

  lemma ReplyWins(s: State, id: CallId)
    requires CallsOk(s) && Enabled(Repaired, s, VoteReplyArrives(id)) && IsCounted(s, id)
    requires (s.nodes[id.candidate].votes + 1) * 2 > |s.peers[id.candidate]| + 1
    ensures Winning(s, CountsVote(Repaired, s, id), id)
  {
    assert CallOk(s, id);
  }

  lemma ReplyCounted(s: State, id: CallId)
    requires CallsOk(s) && Enabled(Repaired, s, VoteReplyArrives(id)) && IsCounted(s, id)
    ensures var s' := CountsVote(Repaired, s, id); Counts(s, s', id) || Winning(s, s', id)
  {
    if (s.nodes[id.candidate].votes + 1) * 2 > |s.peers[id.candidate]| + 1 {
      ReplyWins(s, id);
    } else {
    }
  }

  lemma ReplyCases(s: State, id: CallId)
    requires CallsOk(s) && Enabled(Repaired, s, VoteReplyArrives(id))
    requires var st := s.nodes[id.candidate];
             st.role == Candidate && st.term == id.term ==> s.calls[id].reply.value.term <= id.term
    ensures var s' := CountsVote(Repaired, s, id);
            Ignores(s, s', id) || Counts(s, s', id) || Winning(s, s', id)
  {
    if IsCounted(s, id) { ReplyCounted(s, id); }
  }

  lemma DeliverBacks(s: State, s': State, id: CallId, p: string, c: string, t: nat)
    requires Delivers(s, s', id)
    ensures Backs(s', p, c, t) <==> Backs(s, p, c, t)
  {
  }

  lemma TallyKept(s: State, s': State, id: CallId, c: string, t: nat)
    requires Delivers(s, s', id)
    ensures Tally(s.calls, c, t) <= Tally(s'.calls, c, t)
  {
    forall i | i in s.calls && i.candidate == c && i.term == t && s.calls[i].delivered && Granted(s.calls[i])
      ensures i.voter in Tally(s'.calls, c, t)
    {
      assert i in s'.calls && s'.calls[i] == s.calls[i];
    }
  }

  lemma DeliverTally(s: State, s': State, id: CallId, c: string, t: nat)
    requires CallsOk(s) && Delivers(s, s', id)
    ensures Tally(s'.calls, c, t) == Tally(s.calls, c, t) +
              if Granted(s.calls[id]) && c == id.candidate && t == id.term then {id.voter} else {}
    ensures id.voter != id.candidate ==> id.voter !in Tally(s.calls, id.candidate, id.term)
  {
    TallyKept(s, s', id, c, t);
    if Granted(s.calls[id]) && c == id.candidate && t == id.term {
      assert s'.calls[id].delivered && Granted(s'.calls[id]);
      assert id.voter in Tally(s'.calls, c, t);
    }
    forall q | q in Tally(s'.calls, c, t)
      ensures q in Tally(s.calls, c, t) || (Granted(s.calls[id]) && c == id.candidate && t == id.term && q == id.voter)
    {
    }
  }

  lemma DeliverCalls(s: State, s': State, id: CallId)
    requires StoodOk(s) && CallsOk(s) && Delivers(s, s', id)
    requires var a, b := s.nodes[id.candidate], s'.nodes[id.candidate];
             b.term == a.term && b.log == a.log && (b.role == Candidate ==> a.role == Candidate)
    ensures StoodOk(s') && CallsOk(s')
  {
    assert s'.nodes.Keys == s.nodes.Keys;
    forall i | i in s'.calls ensures CallOk(s', i) { assert CallOk(s, i); }
  }

  lemma DeliverCandidates(s: State, s': State, id: CallId)
    requires CallsOk(s) && CandidatesOk(s) && (Ignores(s, s', id) || Counts(s, s', id))
    ensures CandidatesOk(s')
  {
    assert CallOk(s, id);
    forall c | c in s'.nodes && s'.nodes[c].role == Candidate ensures CandidateOk(s', c) {
      assert CandidateOk(s, c);
      DeliverTally(s, s', id, c, s'.nodes[c].term);
    }
  }

  lemma DeliverBallots(s: State, s': State, id: CallId)
    requires OpenBallotsOk(s) && ClosedBallotsOk(s) && (Ignores(s, s', id) || Counts(s, s', id))
    ensures OpenBallotsOk(s') && ClosedBallotsOk(s')
  {
    forall p, c, t: nat | Backs(s', p, c, t) && t !in s'.reigns && p in s'.nodes && s'.nodes[p].term == t
      ensures s'.nodes[p].vote == c
    {
      DeliverBacks(s, s', id, p, c, t);
    }
    forall p, c, d, t: nat | Backs(s', p, c, t) && Backs(s', p, d, t) && t !in s'.reigns ensures c == d {
      DeliverBacks(s, s', id, p, c, t);
      DeliverBacks(s, s', id, p, d, t);
    }
    forall t, q | t in s'.reigns && q in s'.reigns[t].quorum ensures QuorumBallotOk(s', t, q) {
      assert QuorumBallotOk(s, t, q);
      DeliverBacks(s, s', id, q, s.reigns[t].leader, t);
      forall c | Backs(s', q, c, t) ensures c == s.reigns[t].leader { DeliverBacks(s, s', id, q, c, t); }
    }
  }

  lemma DeliverQuiet(s: State, s': State, id: CallId)
    requires ConfigOk(s) && NodesOk(s) && (Ignores(s, s', id) || Counts(s, s', id))
    ensures var a, b := s.nodes[id.candidate], s'.nodes[id.candidate];
            QuietNode(a, b) && NodeOk(b, s.peers[id.candidate]) && b.term == a.term && b.log == a.log
            && (b.role == Candidate ==> a.role == Candidate)
    ensures SameBallotLogs(s, s') && s'.reigns == s.reigns && Delivers(s, s', id)
  {
    assert NodeOk(s.nodes[id.candidate], s.peers[id.candidate]);
  }

  lemma DeliverVotes(s: State, s': State, id: CallId)
    requires ConfigOk(s) && NodesOk(s) && VoteInv(s) && (Ignores(s, s', id) || Counts(s, s', id))
    ensures VoteInv(s')
  {
    DeliverQuiet(s, s', id);
    DeliverCalls(s, s', id);
    DeliverCandidates(s, s', id);
    DeliverBallots(s, s', id);
  }

  lemma DeliverKeeps(s: State, s': State, id: CallId)
    requires Inv(s) && (Ignores(s, s', id) || Counts(s, s', id))
    ensures Inv(s')
  {
    DeliverVotes(s, s', id);
    DeliverQuiet(s, s', id);
    QuietKeeps(s, s', id.candidate);
  }

  // ----- winning: one leader per term -----

  lemma WinBacking(s: State, s': State, id: CallId, p: string)
    requires StoodOk(s) && CallsOk(s) && Delivers(s, s', id) && IsCounted(s, id)
    requires p in Tally(s'.calls, id.candidate, id.term)
    ensures Backs(s, p, id.candidate, id.term) && p in s.nodes && id.term <= s.nodes[p].term
  {
    assert CallOk(s, id);
    DeliverTally(s, s', id, id.candidate, id.term);
  }

  lemma WinSize(s: State, s': State, id: CallId)
    requires ConfigOk(s) && CallsOk(s) && CandidatesOk(s) && Winning(s, s', id)
    ensures 2 * |Tally(s'.calls, id.candidate, id.term)| > |s.nodes.Keys|
  {
    assert CallOk(s, id);
    DeliverTally(s, s', id, id.candidate, id.term);
    ClusterSize(s, id.candidate);
  }

  lemma WinQuorum(s: State, s': State, id: CallId)
    requires ConfigOk(s) && StoodOk(s) && CallsOk(s) && CandidatesOk(s) && Winning(s, s', id)
    ensures var q := Tally(s'.calls, id.candidate, id.term);
            Majority(s.nodes.Keys, q) && id.candidate in q
            && (forall p | p in q :: Backs(s, p, id.candidate, id.term) && p in s.nodes && id.term <= s.nodes[p].term)
  {
    var q := Tally(s'.calls, id.candidate, id.term);
    WinSize(s, s', id);
    forall p | p in q ensures Backs(s, p, id.candidate, id.term) && p in s.nodes && id.term <= s.nodes[p].term {
      WinBacking(s, s', id, p);
    }
  }

  /** A majority that votes for `c` in a term with a leader shares a voter with the
      leader's quorum, so `c` is that leader. */
  lemma MajorityBacksLeader(s: State, c: string, t: nat, votes: set<string>)
    requires t in s.reigns && ReignOk(s, t) && ClosedBallotsOk(s)
    requires Majority(s.nodes.Keys, votes) && forall p | p in votes :: Backs(s, p, c, t)
    ensures c == s.reigns[t].leader && QuorumBallotOk(s, t, c)
  {
    var q := QuorumsMeet(s.nodes.Keys, s.reigns[t].quorum, votes);
    assert QuorumBallotOk(s, t, q);
  }

  lemma WinIsFirst(s: State, s': State, id: CallId)
    requires ConfigOk(s) && VoteInv(s) && ReignsOk(s) && Winning(s, s', id)
    ensures id.term !in s.reigns
  {
    WinQuorum(s, s', id);
    if id.term in s.reigns {
      MajorityBacksLeader(s, id.candidate, id.term, Tally(s'.calls, id.candidate, id.term));
    }
  }

  lemma WinOpen(s: State, s': State, id: CallId)
    requires OpenBallotsOk(s) && Winning(s, s', id)
    ensures OpenBallotsOk(s')
  {
    forall p, c, t: nat | Backs(s', p, c, t) && t !in s'.reigns && p in s'.nodes && s'.nodes[p].term == t
      ensures s'.nodes[p].vote == c
    {
      DeliverBacks(s, s', id, p, c, t);
    }
    forall p, c, d, t: nat | Backs(s', p, c, t) && Backs(s', p, d, t) && t !in s'.reigns ensures c == d {
      DeliverBacks(s, s', id, p, c, t);
      DeliverBacks(s, s', id, p, d, t);
    }
  }

  lemma OldBallot(s: State, s': State, id: CallId, t: nat, q: string)
    requires Winning(s, s', id) && t in s.reigns && t != id.term && QuorumBallotOk(s, t, q)
    ensures t in s'.reigns && QuorumBallotOk(s', t, q)
  {
    DeliverBacks(s, s', id, q, s.reigns[t].leader, t);
    forall c | Backs(s', q, c, t) ensures c == s.reigns[t].leader { DeliverBacks(s, s', id, q, c, t); }
  }

  lemma WinClosed(s: State, s': State, id: CallId)
    requires ReignsOk(s) && CandidatesOk(s) && OpenBallotsOk(s) && ClosedBallotsOk(s) && Winning(s, s', id)
    requires id.term !in s.reigns
    requires forall p | p in Tally(s'.calls, id.candidate, id.term) ::
               Backs(s, p, id.candidate, id.term) && p in s.nodes && id.term <= s.nodes[p].term
    ensures ClosedBallotsOk(s')
  {
    forall t, q | t in s'.reigns && q in s'.reigns[t].quorum ensures QuorumBallotOk(s', t, q) {
      if t == id.term {
        WinBallot(s, s', id, q);
      } else {
        assert QuorumBallotOk(s, t, q);
        OldBallot(s, s', id, t, q);
      }
    }
  }

  lemma WinBallot(s: State, s': State, id: CallId, q: string)
    requires ReignsOk(s) && CandidatesOk(s) && OpenBallotsOk(s) && Winning(s, s', id)
    requires id.term !in s.reigns && q in s.nodes && Backs(s, q, id.candidate, id.term) && id.term <= s.nodes[q].term
    ensures QuorumBallotOk(s', id.term, q)
  {
    var n, t := id.candidate, id.term;
    DeliverBacks(s, s', id, q, n, t);
    forall c | Backs(s', q, c, t) ensures c == n { DeliverBacks(s, s', id, q, c, t); }
    assert s'.reigns[t].leader == n;
  }

  // ----- winning: nothing committed is missing -----

  /** The last entry of a log is of a term whose leader had the whole log there. */
  lemma LastBacked(s: State, mine: seq<Entry>)
    requires Backed(mine, s.reigns) && mine != []
    ensures var u := mine[|mine| - 1].term; u in s.reigns && mine <= s.reigns[u].log
  {
    assert BackedAt(mine, s.reigns, |mine| - 1);
    assert mine[..|mine|] == mine;
  }

  /** A log that is at least as up to date as one holding what was acked in term `t` has it
      too, when every later leader so far has it. */
  lemma UpToDateContains(s: State, mine: seq<Entry>, theirs: seq<Entry>, t: nat, n: int, req: VoteReq)
    requires Point(s, t, n) && AllLater(s, t, n) && ReignsOk(s)
    requires Backed(mine, s.reigns) && Sorted(theirs) && Upto(s, t, n) <= theirs
    requires req.lastTerm == LastTerm(mine) && req.lastIndex == |mine| - 1 && UpToDate(Repaired, req, theirs)
    ensures Upto(s, t, n) <= mine
  {
    assert theirs[n - 1] == Upto(s, t, n)[n - 1];
    assert LastTerm(theirs) >= theirs[n - 1].term == t;
    LastBacked(s, mine);
    var u := mine[|mine| - 1].term;
    if u > t {
      assert ReignOk(s, u);
    } else {
      PrefixBy(s.reigns[u].log, mine, |mine|, n);
    }
  }

  lemma WinnerHas(s: State, s': State, id: CallId, t: nat, n: int)
    requires ConfigOk(s) && ReignsOk(s) && BackedOk(s) && CallsOk(s) && HeldOk(s) && BallotLogsOk(s)
    requires Winning(s, s', id) && Point(s, t, n) && AllLater(s, t, n) && t < id.term
    requires exists q :: q in s.nodes && Backs(s, q, id.candidate, id.term) && Acked(s, q, t, n)
    ensures Upto(s, t, n) <= s.nodes[id.candidate].log
  {
    var c := id.candidate;
    var q :| q in s.nodes && Backs(s, q, c, id.term) && Acked(s, q, t, n);
    if q != c {
      var i := CallId(c, id.term, q, s.stood[(c, id.term)]);
      assert CallOk(s, i);
      UpToDateContains(s, s.nodes[c].log, s.calls[i].voterLog, t, n, s.calls[i].req);
    }
  }

  lemma WinGrows(s: State, s': State, id: CallId)
    requires Winning(s, s', id) && id.term !in s.reigns
    ensures Grows(s, s')
  {
    assert s'.nodes.Keys == s.nodes.Keys;
    assert forall t | t in s.reigns :: s'.reigns[t] == s.reigns[t];
  }

  /** Leader Completeness at the moment of a win. */
  lemma WinCompletes(s: State, s': State, id: CallId, t: nat, n: int)
    requires ConfigOk(s) && ReignsOk(s) && BackedOk(s) && VoteInv(s)
    requires HeldOk(s) && BallotLogsOk(s) && CompleteOk(s)
    requires Winning(s, s', id) && id.term !in s.reigns && Point(s, t, n) && t < id.term
    ensures Upto(s, t, n) <= s.nodes[id.candidate].log || Blocked(s', t, n)
  {
    var q := Tally(s'.calls, id.candidate, id.term);
    WinQuorum(s, s', id);
    WinGrows(s, s', id);
    if forall p | p in q :: !Acked(s, p, t, n) {
      forall p | p in q ensures s'.nodes[p].term > t && !Acked(s', p, t, n) {
      }
      assert BlockedBy(s', t, n, q);
    } else if Blocked(s, t, n) {
      BlockedGrows(s, s', t, n);
    } else {
      assert AllLater(s, t, n);
      var p :| p in q && Acked(s, p, t, n);
      WinnerHas(s, s', id, t, n);
    }
  }

  // ----- winning: the rest -----

  lemma BackedTerms(log: seq<Entry>, reigns: map<nat, Reign>)
    requires Backed(log, reigns)
    ensures forall i | 0 <= i < |log| :: log[i].term in reigns
  {
    forall i: nat | i < |log| ensures log[i].term in reigns { assert BackedAt(log, reigns, i); }
  }

  lemma WinNodes(s: State, s': State, id: CallId)
    requires ConfigOk(s) && NodesOk(s) && Winning(s, s', id)
    ensures ConfigOk(s') && NodesOk(s')
  {
    var n := id.candidate;
    assert NodeOk(s.nodes[n], s.peers[n]);
    assert NodeOk(s'.nodes[n], s.peers[n]);
    OneNodeConfig(s, s', n);
  }

  lemma NewReign(s: State, s': State, id: CallId)
    requires ConfigOk(s) && Winning(s, s', id) && id.term !in s.reigns && id.term >= 1
    requires NodeOk(s.nodes[id.candidate], s.peers[id.candidate]) && Backed(s.nodes[id.candidate].log, s.reigns)
    requires Majority(s.nodes.Keys, Tally(s'.calls, id.candidate, id.term))
    ensures ReignOk(s', id.term)
  {
    BackedTerms(s.nodes[id.candidate].log, s.reigns);
    assert s'.nodes.Keys == s.nodes.Keys;
  }

  lemma OldReign(s: State, s': State, id: CallId, u: nat)
    requires Winning(s, s', id) && u in s.reigns && u != id.term && ReignOk(s, u)
    ensures u in s'.reigns && ReignOk(s', u)
  {
    assert s'.nodes.Keys == s.nodes.Keys;
  }

  lemma OldReigns(s: State, s': State, id: CallId)
    requires ReignsOk(s) && Winning(s, s', id) && id.term !in s.reigns && ReignOk(s', id.term)
    ensures ReignsOk(s')
  {
    hide ReignOk;
    forall u | u in s'.reigns ensures ReignOk(s', u) {
      if u != id.term {
        assert ReignOk(s, u);
        OldReign(s, s', id, u);
      }
    }
  }

  lemma WinReigns(s: State, s': State, id: CallId)
    requires ConfigOk(s) && StoodOk(s) && CallsOk(s) && CandidatesOk(s) && NodesOk(s) && ReignsOk(s) && BackedOk(s)
    requires Winning(s, s', id) && id.term !in s.reigns
    ensures ReignsOk(s')
  {
    hide ReignsOk, ReignOk;
    WinQuorum(s, s', id);
    assert CallOk(s, id);
    NewReign(s, s', id);
    OldReigns(s, s', id);
  }

  lemma BackedExtends(log: seq<Entry>, a: map<nat, Reign>, b: map<nat, Reign>)
    requires Backed(log, a) && forall t | t in a :: t in b && a[t].log <= b[t].log
    ensures Backed(log, b)
  {
    forall i: nat | i < |log| ensures BackedAt(log, b, i) {
      assert BackedAt(log, a, i);
      var x, y := a[log[i].term].log, b[log[i].term].log;
      assert y[..|x|] == x;
      PrefixBy(x, y, |x|, i + 1);
    }
  }

  lemma WinBacked(s: State, s': State, id: CallId)
    requires BackedOk(s) && Winning(s, s', id) && id.term !in s.reigns
    ensures BackedOk(s')
  {
    forall m | m in s'.nodes ensures Backed(s'.nodes[m].log, s'.reigns) {
      BackedExtends(s.nodes[m].log, s.reigns, s'.reigns);
    }
    forall u | u in s'.reigns ensures Backed(s'.reigns[u].log, s'.reigns) {
      BackedExtends(if u == id.term then s.nodes[id.candidate].log else s.reigns[u].log, s.reigns, s'.reigns);
    }
  }

  lemma WinMessages(s: State, s': State, id: CallId)
    requires AppendsOk(s) && AcksOk(s) && Winning(s, s', id) && id.term !in s.reigns
    ensures AppendsOk(s') && AcksOk(s')
  {
    assert s'.nodes.Keys == s.nodes.Keys;
    forall a | a in s'.appends ensures AppendOk(s', a) { assert AppendOk(s, a); }
    forall k | k in s'.acks ensures AckOk(s', k) {
      assert AckOk(s, k);
      assert AppendOk(s', Append(k.from, k.req));
    }
  }

  lemma WinMatch(s: State, s': State, id: CallId)
    requires ConfigOk(s) && ConfigOk(s') && ReignsOk(s) && MatchOk(s) && Winning(s, s', id) && id.term !in s.reigns
    ensures MatchOk(s')
  {
    WinGrows(s, s', id);
    forall n, p | n in s'.nodes && s'.nodes[n].role == Leader && p in s'.peers[n] && Get(s'.nodes[n].matched, p) >= 0
      ensures Acked(s', p, s'.nodes[n].term, Get(s'.nodes[n].matched, p) + 1)
    {
      if n != id.candidate {
        AckedGrows(s, s', p, s.nodes[n].term, Get(s.nodes[n].matched, p) + 1);
      }
    }
  }

  /** A point of a term other than the new one is an old point, acked by the same nodes. */
  lemma WinPoint(s: State, s': State, id: CallId, t: nat, n: int)
    requires Winning(s, s', id) && id.term !in s.reigns && Backed(s.nodes[id.candidate].log, s.reigns)
    requires Point(s', t, n)
    ensures t != id.term && Point(s, t, n) && Upto(s', t, n) == Upto(s, t, n)
    ensures forall q :: Acked(s', q, t, n) ==> Acked(s, q, t, n)
  {
    BackedTerms(s.nodes[id.candidate].log, s.reigns);
  }

  lemma WinHeld(s: State, s': State, id: CallId)
    requires BackedOk(s) && HeldOk(s) && Winning(s, s', id) && id.term !in s.reigns
    ensures HeldOk(s')
  {
    WinGrows(s, s', id);
    forall q, t: nat, n | q in s'.nodes && Point(s', t, n) && Acked(s', q, t, n) && AllLater(s', t, n)
      ensures Upto(s', t, n) <= s'.nodes[q].log
    {
      WinPoint(s, s', id, t, n);
      AllLaterBefore(s, s', t, n);
    }
  }

  lemma WinBallotLogs(s: State, s': State, id: CallId)
    requires BackedOk(s) && BallotLogsOk(s) && Winning(s, s', id) && id.term !in s.reigns
    ensures BallotLogsOk(s')
  {
    WinGrows(s, s', id);
    forall i, t: nat, n | i in s'.calls && Granted(s'.calls[i]) && t < i.term
                       && Point(s', t, n) && Acked(s', i.voter, t, n) && AllLater(s', t, n)
      ensures Upto(s', t, n) <= s'.calls[i].voterLog
    {
      WinPoint(s, s', id, t, n);
      AllLaterBefore(s, s', t, n);
    }
  }

  lemma OldComplete(s: State, s': State, id: CallId, t: nat, n: int, u: nat)
    requires CompleteOk(s) && Winning(s, s', id) && id.term !in s.reigns
    requires Point(s, t, n) && u in s.reigns && t < u
    ensures Upto(s, t, n) <= s.reigns[u].base || Blocked(s', t, n)
  {
    WinGrows(s, s', id);
    if Blocked(s, t, n) { BlockedGrows(s, s', t, n); }
  }

  lemma WinComplete(s: State, s': State, id: CallId)
    requires ConfigOk(s) && ReignsOk(s) && BackedOk(s) && VoteInv(s)
    requires HeldOk(s) && BallotLogsOk(s) && CompleteOk(s)
    requires Winning(s, s', id) && id.term !in s.reigns
    ensures CompleteOk(s')
  {
    forall t: nat, n, u | Point(s', t, n) && u in s'.reigns && t < u
      ensures Upto(s', t, n) <= s'.reigns[u].base || Blocked(s', t, n)
    {
      WinPoint(s, s', id, t, n);
      if u == id.term { WinCompletes(s, s', id, t, n); } else { OldComplete(s, s', id, t, n, u); }
    }
  }

  lemma WinCommits(s: State, s': State, id: CallId)
    requires CommitsOk(s) && AppendsOk(s) && Winning(s, s', id) && id.term !in s.reigns
    ensures CommitsOk(s')
  {
    WinGrows(s, s', id);
    forall n | n in s'.nodes && -1 <= s'.nodes[n].commit < |s'.nodes[n].log|
      ensures Safe(s', s'.nodes[n].log[..s'.nodes[n].commit + 1], s'.nodes[n].term)
    {
      SafeGrows(s, s', s.nodes[n].log[..s.nodes[n].commit + 1], s.nodes[n].term, s.nodes[n].term);
    }
    forall a | a in s'.appends && AppendOk(s', a)
      ensures Safe(s', s'.reigns[a.req.term].log[..a.req.commit + 1], a.req.term)
    {
      WinMessage(s, s', id, a);
    }
  }

  lemma WinMessage(s: State, s': State, id: CallId, a: Append)
    requires CommitsOk(s) && AppendsOk(s) && Winning(s, s', id) && id.term !in s.reigns && a in s'.appends
             && AppendOk(s', a)
    ensures Safe(s', s'.reigns[a.req.term].log[..a.req.commit + 1], a.req.term)
  {
    WinGrows(s, s', id);
    assert AppendOk(s, a);
    SafeGrows(s, s', s.reigns[a.req.term].log[..a.req.commit + 1], a.req.term, a.req.term);
  }

  lemma WinCandidate(s: State, s': State, id: CallId, c: string)
    requires CallsOk(s) && Winning(s, s', id) && c in s.nodes && c != id.candidate && CandidateOk(s, c)
    ensures CandidateOk(s', c)
  {
    hide CallsOk, Promoted;
    DeliverTally(s, s', id, c, s.nodes[c].term);
  }

  lemma WinCandidates(s: State, s': State, id: CallId)
    requires CallsOk(s) && CandidatesOk(s) && Winning(s, s', id)
    ensures CandidatesOk(s')
  {
    hide CandidateOk, CallsOk;
    forall c | c in s'.nodes && s'.nodes[c].role == Candidate ensures CandidateOk(s', c) {
      assert CandidateOk(s, c);
      WinCandidate(s, s', id, c);
    }
  }

  lemma WinVotes(s: State, s': State, id: CallId)
    requires ConfigOk(s) && VoteInv(s) && ReignsOk(s) && Winning(s, s', id)
    ensures VoteInv(s')
  {
    WinQuorum(s, s', id);
    WinIsFirst(s, s', id);
    DeliverCalls(s, s', id);
    WinCandidates(s, s', id);
    WinOpen(s, s', id);
    WinClosed(s, s', id);
  }

  lemma WinKeeps(s: State, s': State, id: CallId)
    requires Inv(s) && Winning(s, s', id)
    ensures Inv(s')
  {
    WinIsFirst(s, s', id);
    WinVotes(s, s', id);
    WinNodes(s, s', id);
    WinReigns(s, s', id);
    WinBacked(s, s', id);
    WinMessages(s, s', id);
    WinMatch(s, s', id);
    WinHeld(s, s', id);
    WinBallotLogs(s, s', id);
    WinComplete(s, s', id);
    WinCommits(s, s', id);
  }

  // ----- every vote reply -----

  lemma CountsAfterReset(s: State, id: CallId, t: State)
    requires Enabled(Repaired, s, VoteReplyArrives(id))
    requires var st := s.nodes[id.candidate];
             st.role == Candidate && st.term == s.calls[id].req.term < s.calls[id].reply.value.term
    requires t == PutNode(s, id.candidate, ResetToFollower(s.nodes[id.candidate], s.calls[id].reply.value.term))
    ensures CountsVote(Repaired, t, id) == CountsVote(Repaired, s, id)
  {
    var a, b := CountsVote(Repaired, t, id), CountsVote(Repaired, s, id);
    assert a.nodes == b.nodes;
  }

  /** A vote reply is ignored, counted or wins, in the state itself or after a reset to the later
      term of the reply. */
  lemma ReplyOutcome(s: State, id: CallId) returns (t: State)
    requires Inv(s) && Enabled(Repaired, s, VoteReplyArrives(id))
    ensures Inv(t) && (t == s || (OneNode(s, t, id.candidate) && t == PutNode(s, id.candidate, t.nodes[id.candidate])
                                  && s.nodes[id.candidate].term <= t.nodes[id.candidate].term))
    ensures var s' := CountsVote(Repaired, s, id);
            Ignores(t, s', id) || Counts(t, s', id) || Winning(t, s', id)
  {
    var st := s.nodes[id.candidate];
    var rep := s.calls[id].reply.value;
    t := s;
    assert CallOk(s, id);
    if st.role == Candidate && st.term == id.term && rep.term > id.term {
      ResetKeeps(s, id.candidate, rep.term);
      t := PutNode(s, id.candidate, ResetToFollower(st, rep.term));
      CountsAfterReset(s, id, t);
    }
    ReplyCases(t, id);
  }

  lemma VoteReplyArrivesKeeps(s: State, id: CallId)
    requires Inv(s) && Enabled(Repaired, s, VoteReplyArrives(id))
    ensures Inv(CountsVote(Repaired, s, id))
  {
    var t := ReplyOutcome(s, id);
    var s' := CountsVote(Repaired, s, id);
    if Winning(t, s', id) { WinKeeps(t, s', id); } else { DeliverKeeps(t, s', id); }
  }
}
