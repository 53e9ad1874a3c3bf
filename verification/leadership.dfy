/** What only a leader does: moving its indices and its commit index on a reply, and taking
    commands from clients. */
module Leadership {
  import opened RaftTypes
  import opened LogMerge
  import opened Commitment
  import opened Handlers
  import opened Cluster
  import opened Invariant
  import opened Growth
  import opened Votes
  import opened Elections
  import opened Replication

  // ----- the majority rule -----

  lemma MatchersAcked(s: State, n: string, st: NodeState, i: int, p: string)
    requires ConfigOk(s) && n in s.nodes && p in MatchSet(s.peers[n], st.matched, i) && 0 <= i
    requires forall p | p in s.peers[n] && Get(st.matched, p) >= 0 :: Acked(s, p, st.term, Get(st.matched, p) + 1)
    ensures p in s.nodes && p != n && Acked(s, p, st.term, i + 1)
  {
    PeerIsOther(s, n, p);
  }

  lemma MatchersMajority(s: State, n: string, st: NodeState, i: int)
    requires ConfigOk(s) && n in s.nodes && 0 <= i < |st.log| && Committable(st, s.peers[n], i)
    requires forall p | p in MatchSet(s.peers[n], st.matched, i) :: p in s.nodes && p != n
    ensures Majority(s.nodes.Keys, MatchSet(s.peers[n], st.matched, i) + {n})
  {
    assert PeersOk(n, s.peers[n], s.nodes.Keys);
    MatchCountIsSetSize(s.peers[n], st.matched, i);
    ClusterSize(s, n);
  }

  /** What the commit loop accepts is held by a majority of the cluster. */
  lemma CommittableCommits(s: State, n: string, st: NodeState, i: int)
    requires ConfigOk(s) && n in s.nodes && st.term in s.reigns && s.reigns[st.term].leader == n
    requires st.log == s.reigns[st.term].log && 0 <= i < |st.log| && Committable(st, s.peers[n], i)
    requires forall p | p in s.peers[n] && Get(st.matched, p) >= 0 :: Acked(s, p, st.term, Get(st.matched, p) + 1)
    ensures Committed(s, st.term, i + 1)
  {
    var q := MatchSet(s.peers[n], st.matched, i);
    forall p | p in q ensures p in s.nodes && p != n && Acked(s, p, st.term, i + 1) {
      MatchersAcked(s, n, st, i, p);
    }
    MatchersMajority(s, n, st, i);
    assert CommittedBy(s, st.term, i + 1, q + {n});
  }

  // ----- a reply to AppendEntries -----

  /** `st` is a sound state for the leader of its term: its match indices and its commit index
      speak the truth. */
  ghost predicate LeaderNodeOk(s: State, n: string, st: NodeState) {
    && n in s.nodes && n in s.peers && st.role == Leader
    && st.term in s.reigns && s.reigns[st.term].leader == n && st.log == s.reigns[st.term].log
    && NodeOk(st, s.peers[n]) && st.commit < |st.log| && Safe(s, st.log[..st.commit + 1], st.term)
    && forall p | p in s.peers[n] && Get(st.matched, p) >= 0 :: Acked(s, p, st.term, Get(st.matched, p) + 1)
  }

  /** The leader of its term has moved its indices, soundly. */
  ghost predicate Progressing(s: State, s': State, n: string) {
    && OneNode(s, s', n) && n in s.peers
    && s'.calls == s.calls && s'.stood == s.stood && s'.reigns == s.reigns && s'.appends == s.appends
    && s'.acks == s.acks
    && LeaderNodeOk(s, n, s.nodes[n]) && LeaderNodeOk(s, n, s'.nodes[n])
    && var x, y := s.nodes[n], s'.nodes[n];
       x.term == y.term && x.vote == y.vote && x.votes == y.votes && x.log == y.log
  }

  lemma ProgressMatch(s: State, s': State, n: string)
    requires ConfigOk(s) && ConfigOk(s') && MatchOk(s) && Progressing(s, s', n)
    ensures MatchOk(s')
  {
    hide NodeOk, Safe;
    forall m, p | m in s'.nodes && s'.nodes[m].role == Leader && p in s'.peers[m] && Get(s'.nodes[m].matched, p) >= 0
      ensures Acked(s', p, s'.nodes[m].term, Get(s'.nodes[m].matched, p) + 1)
    {
    }
  }

  lemma ProgressSafe(s: State, s': State, n: string, m: string)
    requires CommitsOk(s) && Progressing(s, s', n)
    requires m in s'.nodes && -1 <= s'.nodes[m].commit < |s'.nodes[m].log|
    ensures Safe(s, s'.nodes[m].log[..s'.nodes[m].commit + 1], s'.nodes[m].term)
  {
    if m != n { assert s'.nodes[m] == s.nodes[m]; }
  }

  lemma ProgressCommits(s: State, s': State, n: string)
    requires CommitsOk(s) && AppendsOk(s) && Progressing(s, s', n) && Still(s, s')
    ensures CommitsOk(s')
  {
    StillGrows(s, s');
    forall m | m in s'.nodes && -1 <= s'.nodes[m].commit < |s'.nodes[m].log|
      ensures Safe(s', s'.nodes[m].log[..s'.nodes[m].commit + 1], s'.nodes[m].term)
    {
      ProgressSafe(s, s', n, m);
      SafeGrows(s, s', s'.nodes[m].log[..s'.nodes[m].commit + 1], s'.nodes[m].term, s'.nodes[m].term);
    }
    OldMessageCommits(s, s');
    forall a | a in s'.appends && AppendOk(s', a)
      ensures Safe(s', s'.reigns[a.req.term].log[..a.req.commit + 1], a.req.term) {}
  }

  lemma ProgressStill(s: State, s': State)
    requires Still(s, s') && s'.appends == s.appends && s'.calls == s.calls
    requires ReignsOk(s) && BackedOk(s) && AppendsOk(s) && AcksOk(s) && HeldOk(s) && CompleteOk(s) && BallotLogsOk(s)
    ensures ReignsOk(s') && BackedOk(s') && AppendsOk(s') && AcksOk(s') && HeldOk(s') && CompleteOk(s')
            && BallotLogsOk(s')
  {
    StillReigns(s, s');
    StillMessages(s, s');
    StillHeld(s, s');
    StillComplete(s, s');
    StillBallotLogs(s, s');
  }

  lemma ProgressVotes(s: State, s': State, n: string)
    requires VoteInv(s) && Progressing(s, s', n)
    ensures VoteInv(s')
  {
    VotesKept(s, s', n);
  }

  lemma ProgressIsStill(s: State, s': State, n: string)
    requires ConfigOk(s) && NodesOk(s) && Progressing(s, s', n)
    ensures ConfigOk(s') && NodesOk(s') && Still(s, s')
  {
    OneNodeConfig(s, s', n);
    OneNodeStill(s, s', n);
  }

  lemma ProgressKeeps(s: State, s': State, n: string)
    requires Inv(s) && Progressing(s, s', n)
    ensures Inv(s')
  {
    ProgressIsStill(s, s', n);
    ProgressVotes(s, s', n);
    ProgressStill(s, s');
    ProgressMatch(s, s', n);
    ProgressCommits(s, s', n);
  }

  lemma AdvanceNode(st: NodeState, peers: seq<string>)
    requires NodeOk(st, peers) && st.role == Leader
    ensures var r := AdvanceCommit(st, peers);
            && NodeOk(r, peers) && r.commit == AdvanceBelow(st, peers, |st.log|)
            && r.log == st.log && r.term == st.term && r.role == Leader && r.vote == st.vote && r.votes == st.votes
            && r.matched == st.matched
  {
    var to := AdvanceBelow(st, peers, |st.log|);
    if to != st.commit {
      assert st.log[..st.commit + 1] + st.log[st.commit + 1..to + 1] == st.log[..to + 1];
    }
  }

  /** The commit loop keeps a leader's state sound. */
  lemma AdvanceSafe(s: State, n: string, st: NodeState)
    requires ConfigOk(s) && LeaderNodeOk(s, n, st)
    ensures var to := AdvanceBelow(st, s.peers[n], |st.log|);
            to < |st.log| && Safe(s, st.log[..to + 1], st.term)
  {
    var to := AdvanceBelow(st, s.peers[n], |st.log|);
    AdvanceBelowIsGreatest(st, s.peers[n], |st.log|);
    if to != st.commit {
      CommittableCommits(s, n, st, to);
      assert Covers(s, st.term, to + 1, st.log[..to + 1]);
    }
  }

  lemma AdvanceLeader(s: State, n: string, st: NodeState)
    requires ConfigOk(s) && LeaderNodeOk(s, n, st)
    ensures LeaderNodeOk(s, n, AdvanceCommit(st, s.peers[n]))
  {
    AdvanceSafe(s, n, st);
    AdvanceNode(st, s.peers[n]);
  }

  /** The leader's node once the reply has set its indices, before the commit loop. */
  function Indexed(st: NodeState, k: Ack): (after: NodeState) {
    if k.rep.success then st.(next := st.next[k.from := End(k.req)], matched := st.matched[k.from := End(k.req) - 1])
    else st.(next := st.next[k.from := k.req.prevIndex])
  }

  ghost predicate IsProgress(s: State, k: Ack) {
    && k in s.acks && k.req.leader in s.nodes
    && var st := s.nodes[k.req.leader];
       st.role == Leader && k.rep.term == k.req.term == st.term
  }

  lemma ReplyKnows(s: State, k: Ack)
    requires BaseInv(s) && AcksOk(s) && MatchOk(s) && CommitsOk(s) && IsProgress(s, k)
    ensures LeaderNodeOk(s, k.req.leader, s.nodes[k.req.leader]) && AckOk(s, k)
  {
    assert AckOk(s, k);
    assert NodeOk(s.nodes[k.req.leader], s.peers[k.req.leader]);
    assert ReignOk(s, s.nodes[k.req.leader].term);
  }

  lemma ReplyProgresses(s: State, k: Ack)
    requires ConfigOk(s) && IsProgress(s, k) && AckOk(s, k) && LeaderNodeOk(s, k.req.leader, s.nodes[k.req.leader])
    requires Enabled(Repaired, s, AppendReplyArrives(k))
    ensures Progressing(s, Acknowledged(Repaired, s, k), k.req.leader)
  {
    var n := k.req.leader;
    AdvanceLeader(s, n, Indexed(s.nodes[n], k));
    AdvanceNode(Indexed(s.nodes[n], k), s.peers[n]);
    AcknowledgedNode(s, k);
  }

  lemma AcknowledgedNode(s: State, k: Ack)
    requires IsProgress(s, k) && Enabled(Repaired, s, AppendReplyArrives(k))
    ensures var n := k.req.leader;
            var st := Indexed(s.nodes[n], k);
            Acknowledged(Repaired, s, k) == PutNode(s, n, if k.rep.success then AdvanceCommit(st, s.peers[n]) else st)
  {
  }

  lemma ReplyMoves(s: State, k: Ack)
    requires ReignsOk(s) && AcksOk(s) && Enabled(Repaired, s, AppendReplyArrives(k)) && !IsProgress(s, k)
    ensures var n, s' := k.req.leader, Acknowledged(Repaired, s, k);
            s' == s || (Bumps(s, n, k.rep.term) && s' == PutNode(s, n, ResetToFollower(s.nodes[n], k.rep.term)))
  {
    assert AckOk(s, k);
    var n := k.req.leader;
    assert s.nodes[n := s.nodes[n]] == s.nodes;
  }

  lemma AppendReplyArrivesKeeps(s: State, k: Ack)
    requires Inv(s) && Enabled(Repaired, s, AppendReplyArrives(k))
    ensures Inv(Acknowledged(Repaired, s, k))
  {
    var s' := Acknowledged(Repaired, s, k);
    if IsProgress(s, k) {
      ReplyKnows(s, k);
      ReplyProgresses(s, k);
      ProgressKeeps(s, s', k.req.leader);
    } else {
      ReplyMoves(s, k);
      if s' != s { ResetKeeps(s, k.req.leader, k.rep.term); }
    }
  }

  // ----- submissions -----

  ghost predicate Submitting(s: State, s': State, n: string, e: Entry) {
    && OneNode(s, s', n) && n in s.peers
    && s'.calls == s.calls && s'.stood == s.stood && s'.appends == s.appends && s'.acks == s.acks
    && var x, y := s.nodes[n], s'.nodes[n];
       && x.role == Leader && x.term in s.reigns && s.reigns[x.term].leader == n && x.log == s.reigns[x.term].log
       && e.term == x.term && y == x.(log := x.log + [e], disk := x.disk.(log := x.disk.log + [e]))
       && s'.reigns == s.reigns[x.term := s.reigns[x.term].(log := y.log)]
  }

  lemma SubmitStep(s: State, n: string, c: Command)
    requires ConfigOk(s) && ReignsOk(s) && n in s.nodes && s.nodes[n].role == Leader
    ensures Submitting(s, Submits(s, n, c), n, Entry(s.nodes[n].term, c))
  {
    assert ReignOk(s, s.nodes[n].term);
  }

  lemma SubmitGrows(s: State, s': State, n: string, e: Entry)
    requires Submitting(s, s', n, e)
    ensures Grows(s, s')
  {
    assert s'.nodes.Keys == s.nodes.Keys;
    forall t | t in s.reigns ensures t in s'.reigns && ReignGrows(s.reigns[t], s'.reigns[t]) {}
  }

  lemma SortedAppend(log: seq<Entry>, e: Entry)
    requires Sorted(log) && TermsWithin(log, e.term) && 1 <= e.term
    ensures Sorted(log + [e]) && TermsWithin(log + [e], e.term)
  {
  }

  lemma AppendNode(st: NodeState, peers: seq<string>, e: Entry)
    requires NodeOk(st, peers) && e.term == st.term >= 1
    ensures NodeOk(st.(log := st.log + [e], disk := st.disk.(log := st.disk.log + [e])), peers)
  {
    SortedAppend(st.log, e);
  }

  lemma SubmitNode(s: State, s': State, n: string, e: Entry)
    requires ConfigOk(s) && NodesOk(s) && ReignsOk(s) && Submitting(s, s', n, e)
    ensures NodeOk(s'.nodes[n], s.peers[n]) && ConfigOk(s') && NodesOk(s')
  {
    assert NodeOk(s.nodes[n], s.peers[n]);
    AppendNode(s.nodes[n], s.peers[n], e);
    OneNodeConfig(s, s', n);
  }

  lemma LongerReign(s: State, s': State, n: string, e: Entry)
    requires ReignsOk(s) && Submitting(s, s', n, e)
    ensures ReignOk(s', e.term)
  {
    var r := s.reigns[e.term];
    assert ReignOk(s, e.term);
    assert s'.nodes.Keys == s.nodes.Keys;
    SortedAppend(r.log, e);
  }

  lemma OtherReign(s: State, s': State, n: string, e: Entry, t: nat)
    requires Submitting(s, s', n, e) && t in s.reigns && t != e.term && ReignOk(s, t)
    ensures t in s'.reigns && ReignOk(s', t)
  {
    assert s'.nodes.Keys == s.nodes.Keys;
  }

  lemma SubmitReigns(s: State, s': State, n: string, e: Entry)
    requires ReignsOk(s) && Submitting(s, s', n, e)
    ensures ReignsOk(s')
  {
    LongerReign(s, s', n, e);
    assert s'.nodes.Keys == s.nodes.Keys;
    forall t | t in s'.reigns ensures ReignOk(s', t) {
      if t != e.term {
        assert ReignOk(s, t);
        OtherReign(s, s', n, e, t);
      }
    }
  }

  lemma SubmitBacked(s: State, s': State, n: string, e: Entry)
    requires BackedOk(s) && Submitting(s, s', n, e)
    ensures BackedOk(s')
  {
    SubmitGrows(s, s', n, e);
    assert forall t | t in s.reigns :: t in s'.reigns && ReignGrows(s.reigns[t], s'.reigns[t]);
    var x, y := s.nodes[n], s'.nodes[n];
    BackedExtends(x.log, s.reigns, s'.reigns);
    forall i: nat | i < |y.log| ensures BackedAt(y.log, s'.reigns, i) {
      if i < |x.log| {
        assert BackedAt(x.log, s'.reigns, i);
        assert y.log[..i + 1] == x.log[..i + 1];
      } else {
        assert y.log[..i + 1] == y.log;
      }
    }
    forall m | m in s'.nodes ensures Backed(s'.nodes[m].log, s'.reigns) {
      if m != n { BackedExtends(s.nodes[m].log, s.reigns, s'.reigns); }
    }
    forall t | t in s'.reigns ensures Backed(s'.reigns[t].log, s'.reigns) {
      if t != x.term { BackedExtends(s.reigns[t].log, s.reigns, s'.reigns); }
    }
  }

  lemma SubmitMessages(s: State, s': State, n: string, e: Entry)
    requires AppendsOk(s) && AcksOk(s) && Submitting(s, s', n, e)
    ensures AppendsOk(s') && AcksOk(s')
  {
    assert s'.nodes.Keys == s.nodes.Keys;
    forall a | a in s'.appends ensures AppendOk(s', a) { assert AppendOk(s, a); }
    forall k | k in s'.acks ensures AckOk(s', k) {
      assert AckOk(s, k);
      assert AppendOk(s', Append(k.from, k.req));
      var x, y := s.reigns[k.req.term].log, s'.reigns[k.req.term].log;
      assert y[..|x|] == x;
      PrefixBy(x, y, |x|, End(k.req));
    }
  }

  lemma SubmitMatch(s: State, s': State, n: string, e: Entry)
    requires ConfigOk(s) && ConfigOk(s') && MatchOk(s) && Submitting(s, s', n, e)
    ensures MatchOk(s')
  {
    SubmitGrows(s, s', n, e);
    forall m, p | m in s'.nodes && s'.nodes[m].role == Leader && p in s'.peers[m] && Get(s'.nodes[m].matched, p) >= 0
      ensures Acked(s', p, s'.nodes[m].term, Get(s'.nodes[m].matched, p) + 1)
    {
      AckedGrows(s, s', p, s.nodes[m].term, Get(s.nodes[m].matched, p) + 1);
    }
  }

  /** A point is an old one, held by the same nodes, or the new entry, held by the leader alone. */
  lemma SubmitPoint(s: State, s': State, n: string, e: Entry, t: nat, m: int)
    requires Submitting(s, s', n, e) && AcksOk(s) && Point(s', t, m)
    ensures if t == s.nodes[n].term && m == |s.nodes[n].log| + 1
            then forall q :: Acked(s', q, t, m) ==> q == n
            else Point(s, t, m) && Upto(s', t, m) == Upto(s, t, m)
                 && forall q :: Acked(s', q, t, m) ==> Acked(s, q, t, m)
  {
    if t == s.nodes[n].term && m == |s.nodes[n].log| + 1 {
    } else if t == s.nodes[n].term {
      assert s'.reigns[t].log[..m] == s.reigns[t].log[..m];
    }
  }

  lemma SubmitHeld(s: State, s': State, n: string, e: Entry)
    requires AcksOk(s) && HeldOk(s) && Submitting(s, s', n, e)
    ensures HeldOk(s')
  {
    SubmitGrows(s, s', n, e);
    forall q, t: nat, m | q in s'.nodes && Point(s', t, m) && Acked(s', q, t, m) && AllLater(s', t, m)
      ensures Upto(s', t, m) <= s'.nodes[q].log
    {
      SubmitPoint(s, s', n, e, t, m);
      if Point(s, t, m) { AllLaterBefore(s, s', t, m); }
    }
  }

  lemma SubmitBallotLogs(s: State, s': State, n: string, e: Entry)
    requires CallsOk(s) && AcksOk(s) && BallotLogsOk(s) && Submitting(s, s', n, e)
    ensures BallotLogsOk(s')
  {
    SubmitGrows(s, s', n, e);
    forall i, t: nat, m | i in s'.calls && Granted(s'.calls[i]) && t < i.term
                       && Point(s', t, m) && Acked(s', i.voter, t, m) && AllLater(s', t, m)
      ensures Upto(s', t, m) <= s'.calls[i].voterLog
    {
      SubmitPoint(s, s', n, e, t, m);
      assert CallOk(s, i);
      if Point(s, t, m) { AllLaterBefore(s, s', t, m); }
    }
  }

  /** Nobody but the leader has the new entry, and whoever elected a later leader never will. */
  /** The entry just submitted was held by nobody who has moved on. */
  lemma NewPointBlocked(s: State, s': State, n: string, e: Entry, t: nat, m: int, u: nat)
    requires ClosedBallotsOk(s) && ReignsOk(s) && AcksOk(s) && Submitting(s, s', n, e)
    requires Point(s', t, m) && u in s.reigns && t < u && t == s.nodes[n].term && m == |s.nodes[n].log| + 1
    ensures Blocked(s', t, m)
  {
    SubmitPoint(s, s', n, e, t, m);
    var r := s.reigns[u].quorum;
    assert ReignOk(s, u);
    assert s'.nodes.Keys == s.nodes.Keys;
    forall q | q in r ensures s'.nodes[q].term > t && !Acked(s', q, t, m) { assert QuorumBallotOk(s, u, q); }
    assert BlockedBy(s', t, m, r);
  }

  lemma SubmitComplete(s: State, s': State, n: string, e: Entry)
    requires ClosedBallotsOk(s) && ReignsOk(s) && AcksOk(s) && CompleteOk(s) && Submitting(s, s', n, e)
    ensures CompleteOk(s')
  {
    SubmitGrows(s, s', n, e);
    forall t: nat, m, u | Point(s', t, m) && u in s'.reigns && t < u
      ensures Upto(s', t, m) <= s'.reigns[u].base || Blocked(s', t, m)
    {
      SubmitPoint(s, s', n, e, t, m);
      if t == s.nodes[n].term && m == |s.nodes[n].log| + 1 {
        NewPointBlocked(s, s', n, e, t, m, u);
      } else if Blocked(s, t, m) {
        BlockedGrows(s, s', t, m);
      }
    }
  }

  lemma SubmitDone(s: State, s': State, n: string, e: Entry, m: string)
    requires Submitting(s, s', n, e) && m in s.nodes && -1 <= s.nodes[m].commit < |s.nodes[m].log|
    ensures s'.nodes[m].log[..s'.nodes[m].commit + 1] == s.nodes[m].log[..s.nodes[m].commit + 1]
    ensures s'.nodes[m].term == s.nodes[m].term
  {
  }

  lemma SubmitCommits(s: State, s': State, n: string, e: Entry)
    requires CommitsOk(s) && AppendsOk(s) && NodesOkAt(s, n) && Submitting(s, s', n, e)
    ensures CommitsOk(s')
  {
    SubmitGrows(s, s', n, e);
    forall m | m in s'.nodes && -1 <= s'.nodes[m].commit < |s'.nodes[m].log|
      ensures Safe(s', s'.nodes[m].log[..s'.nodes[m].commit + 1], s'.nodes[m].term)
    {
      SubmitDone(s, s', n, e, m);
      SafeGrows(s, s', s.nodes[m].log[..s.nodes[m].commit + 1], s.nodes[m].term, s.nodes[m].term);
    }
    OldMessageCommits(s, s');
  }

  ghost predicate NodesOkAt(s: State, n: string) {
    n in s.nodes && -1 <= s.nodes[n].commit < |s.nodes[n].log|
  }

  lemma SubmitLogs(s: State, s': State, n: string, e: Entry)
    requires ConfigOk(s) && ConfigOk(s') && ReignsOk(s) && CallsOk(s) && ClosedBallotsOk(s) && LogInv(s)
             && NodesOkAt(s, n)
    requires Submitting(s, s', n, e)
    ensures LogInv(s')
  {
    SubmitMessages(s, s', n, e);
    SubmitMatch(s, s', n, e);
    SubmitHeld(s, s', n, e);
    SubmitBallotLogs(s, s', n, e);
    SubmitComplete(s, s', n, e);
    SubmitCommits(s, s', n, e);
  }

  lemma SubmitBase(s: State, s': State, n: string, e: Entry)
    requires BaseInv(s) && Submitting(s, s', n, e)
    ensures BaseInv(s') && NodesOkAt(s, n)
  {
    assert NodeOk(s.nodes[n], s.peers[n]);
    SubmitNode(s, s', n, e);
    SubmitReigns(s, s', n, e);
    SubmitBacked(s, s', n, e);
  }

  lemma SubmitVotes(s: State, s': State, n: string, e: Entry)
    requires VoteInv(s) && Submitting(s, s', n, e)
    ensures VoteInv(s')
  {
    assert s'.nodes.Keys == s.nodes.Keys;
    VotesKept(s, s', n);
  }

  lemma SubmitsKeeps(s: State, n: string, c: Command)
    requires Inv(s) && n in s.nodes && s.nodes[n].role == Leader
    ensures Inv(Submits(s, n, c))
  {
    var e := Entry(s.nodes[n].term, c);
    SubmitStep(s, n, c);
    SubmittingKeeps(s, Submits(s, n, c), n, e);
  }

  lemma SubmittingKeeps(s: State, s': State, n: string, e: Entry)
    requires Inv(s) && Submitting(s, s', n, e)
    ensures Inv(s')
  {
    SubmitBase(s, s', n, e);
    SubmitVotes(s, s', n, e);
    SubmitLogs(s, s', n, e);
  }
}
