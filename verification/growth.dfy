/** What stays true while history grows, and what the steps that leave the logs alone keep. */
module Growth {
  import opened RaftTypes
  import opened LogMerge
  import opened Commitment
  import opened Handlers
  import opened Cluster
  import opened Invariant

  ghost predicate ReignGrows(a: Reign, b: Reign) {
    b.leader == a.leader && b.quorum == a.quorum && b.base == a.base && a.log <= b.log
  }

  /** Terms go up, messages stay known, and leaders only append to their logs. */
  ghost predicate Extends(s: State, s': State) {
    && s'.peers == s.peers && s'.nodes.Keys == s.nodes.Keys
    && (forall n | n in s.nodes :: s.nodes[n].term <= s'.nodes[n].term)
    && s.appends <= s'.appends && s.acks <= s'.acks
    && (forall t | t in s.reigns :: t in s'.reigns && ReignGrows(s.reigns[t], s'.reigns[t]))
  }

  /** And a new acknowledgement speaks of the term its sender is in. */
  ghost predicate Grows(s: State, s': State) {
    && Extends(s, s')
    && (forall k | k in s'.acks && k !in s.acks && k.rep.success ::
          k.from in s.nodes && k.req.term >= s.nodes[k.from].term)
  }

  lemma PointGrows(s: State, s': State, t: nat, n: int)
    requires Extends(s, s') && Point(s, t, n)
    ensures Point(s', t, n) && Upto(s', t, n) == Upto(s, t, n)
  {
    var a, b := s.reigns[t].log, s'.reigns[t].log;
    assert ReignGrows(s.reigns[t], s'.reigns[t]);
    assert b[..|a|] == a;
    assert b[..n] == b[..|a|][..n];
    assert b[n - 1] == b[..|a|][n - 1];
  }

  lemma AckedGrows(s: State, s': State, q: string, t: nat, n: int)
    requires Extends(s, s') && Acked(s, q, t, n)
    ensures Acked(s', q, t, n)
  {
    assert ReignGrows(s.reigns[t], s'.reigns[t]);
    if q != s.reigns[t].leader {
      var k :| k in s.acks && AckCovers(k, q, t, n);
      assert k in s'.acks;
    }
  }

  lemma AllLaterBefore(s: State, s': State, t: nat, n: int)
    requires Extends(s, s') && Point(s, t, n) && Point(s', t, n) && AllLater(s', t, n)
    ensures AllLater(s, t, n)
  {
    PointGrows(s, s', t, n);
    forall u | u in s.reigns && u > t ensures Upto(s, t, n) <= s.reigns[u].base {
      assert ReignGrows(s.reigns[u], s'.reigns[u]);
    }
  }

  lemma BlockedGrows(s: State, s': State, t: nat, n: int)
    requires Grows(s, s') && Point(s, t, n) && Blocked(s, t, n)
    ensures Blocked(s', t, n)
  {
    var r :| BlockedBy(s, t, n, r);
    forall q | q in r ensures s'.nodes[q].term > t && !Acked(s', q, t, n) {
    }
    assert BlockedBy(s', t, n, r);
  }

  lemma CommittedGrows(s: State, s': State, t: nat, n: int)
    requires Extends(s, s') && Committed(s, t, n)
    ensures Committed(s', t, n)
  {
    var r :| CommittedBy(s, t, n, r);
    PointGrows(s, s', t, n);
    forall q | q in r ensures Acked(s', q, t, n) { AckedGrows(s, s', q, t, n); }
    assert CommittedBy(s', t, n, r);
  }

  lemma SafeGrows(s: State, s': State, log: seq<Entry>, term: nat, term': nat)
    requires Extends(s, s') && Safe(s, log, term) && term <= term'
    ensures Safe(s', log, term')
  {
    if log != [] {
      var t: nat, n :| t <= term && Covers(s, t, n, log);
      CommittedGrows(s, s', t, n);
      var a, b := s.reigns[t].log, s'.reigns[t].log;
      assert ReignGrows(s.reigns[t], s'.reigns[t]);
      assert b[..|a|] == a;
      assert b[..|log|] == b[..|a|][..|log|];
      assert Covers(s', t, n, log);
    }
  }

  // ----- steps that change no log -----

  ghost predicate StillNode(a: NodeState, b: NodeState) {
    && b.log == a.log && a.term <= b.term
    && (b.role == Leader ==> a.role == Leader && a.term == b.term)
    && (b.role == Candidate ==> (a.role == Candidate && a.term == b.term) || b.term > a.term)
  }

  ghost predicate Still(s: State, s': State) {
    && s'.peers == s.peers && s'.nodes.Keys == s.nodes.Keys
    && s.appends <= s'.appends && s'.acks == s.acks && s'.reigns == s.reigns
    && forall n | n in s.nodes :: StillNode(s.nodes[n], s'.nodes[n])
  }

  lemma StillGrows(s: State, s': State)
    requires Still(s, s')
    ensures Grows(s, s')
  {
    forall n | n in s.nodes ensures s.nodes[n].term <= s'.nodes[n].term { assert StillNode(s.nodes[n], s'.nodes[n]); }
  }

  lemma StillReigns(s: State, s': State)
    requires Still(s, s') && ReignsOk(s) && BackedOk(s)
    ensures ReignsOk(s') && BackedOk(s')
  {
    forall t | t in s'.reigns ensures ReignOk(s', t) {
      assert ReignOk(s, t);
      assert StillNode(s.nodes[s.reigns[t].leader], s'.nodes[s.reigns[t].leader]);
    }
    forall n | n in s'.nodes ensures Backed(s'.nodes[n].log, s'.reigns)
                             ensures s'.nodes[n].role == Leader ==>
                               s'.nodes[n].term in s'.reigns && s'.reigns[s'.nodes[n].term].leader == n
    {
      assert StillNode(s.nodes[n], s'.nodes[n]);
    }
  }

  lemma StillMessages(s: State, s': State)
    requires Still(s, s') && AppendsOk(s) && AcksOk(s)
    requires forall a | a in s'.appends && a !in s.appends :: AppendOk(s', a)
    ensures AppendsOk(s') && AcksOk(s')
  {
    forall a | a in s'.appends ensures AppendOk(s', a) { if a in s.appends { assert AppendOk(s, a); } }
    forall k | k in s'.acks ensures AckOk(s', k) {
      assert AckOk(s, k);
      assert StillNode(s.nodes[k.from], s'.nodes[k.from]);
      assert AppendOk(s', Append(k.from, k.req));
    }
  }

  lemma StillHeld(s: State, s': State)
    requires Still(s, s') && HeldOk(s)
    ensures HeldOk(s')
  {
    StillGrows(s, s');
    forall q, t: nat, n | q in s'.nodes && Point(s', t, n) && Acked(s', q, t, n) && AllLater(s', t, n)
      ensures Upto(s', t, n) <= s'.nodes[q].log
    {
      assert Point(s, t, n);
      AllLaterBefore(s, s', t, n);
      assert StillNode(s.nodes[q], s'.nodes[q]);
    }
  }

  lemma StillComplete(s: State, s': State)
    requires Still(s, s') && CompleteOk(s)
    ensures CompleteOk(s')
  {
    StillGrows(s, s');
    forall t: nat, n, u | Point(s', t, n) && u in s'.reigns && t < u
      ensures Upto(s', t, n) <= s'.reigns[u].base || Blocked(s', t, n)
    {
      assert Point(s, t, n);
      if !(Upto(s, t, n) <= s.reigns[u].base) { BlockedGrows(s, s', t, n); }
    }
  }

  /** Calls may gain answers; the logs of the grants known before stay. */
  ghost predicate SameBallotLogs(s: State, s': State) {
    forall id | id in s'.calls && Granted(s'.calls[id]) ::
      id in s.calls && Granted(s.calls[id]) && s'.calls[id].voterLog == s.calls[id].voterLog
  }

  lemma StillBallotLogs(s: State, s': State)
    requires Still(s, s') && BallotLogsOk(s) && SameBallotLogs(s, s')
    ensures BallotLogsOk(s')
  {
    StillGrows(s, s');
    forall id, t: nat, n | id in s'.calls && Granted(s'.calls[id]) && t < id.term
                        && Point(s', t, n) && Acked(s', id.voter, t, n) && AllLater(s', t, n)
      ensures Upto(s', t, n) <= s'.calls[id].voterLog
    {
      assert Point(s, t, n);
      AllLaterBefore(s, s', t, n);
    }
  }

  // ----- and neither a match index nor, short of a restart, a commit index -----

  ghost predicate QuietNode(a: NodeState, b: NodeState) {
    && StillNode(a, b) && (b.commit == a.commit || b.commit == -1)
    && (b.role == Leader ==> a.matched == b.matched)
  }

  ghost predicate Quiet(s: State, s': State) {
    && Still(s, s') && s'.appends == s.appends
    && forall n | n in s.nodes :: QuietNode(s.nodes[n], s'.nodes[n])
  }

  lemma QuietCommits(s: State, s': State)
    requires Quiet(s, s') && CommitsOk(s)
    ensures CommitsOk(s')
  {
    StillGrows(s, s');
    forall n | n in s'.nodes && -1 <= s'.nodes[n].commit < |s'.nodes[n].log|
      ensures Safe(s', s'.nodes[n].log[..s'.nodes[n].commit + 1], s'.nodes[n].term)
    {
      assert QuietNode(s.nodes[n], s'.nodes[n]);
      var done := s'.nodes[n].log[..s'.nodes[n].commit + 1];
      if s'.nodes[n].commit == s.nodes[n].commit {
        SafeGrows(s, s', done, s.nodes[n].term, s'.nodes[n].term);
      }
    }
    forall a | a in s'.appends && AppendOk(s', a)
      ensures Safe(s', s'.reigns[a.req.term].log[..a.req.commit + 1], a.req.term)
    {
      assert AppendOk(s, a);
      SafeGrows(s, s', s.reigns[a.req.term].log[..a.req.commit + 1], a.req.term, a.req.term);
    }
  }

  lemma QuietLogInv(s: State, s': State)
    requires ConfigOk(s) && ConfigOk(s') && Quiet(s, s') && LogInv(s) && BallotLogsOk(s')
    ensures LogInv(s')
  {
    StillMessages(s, s');
    StillHeld(s, s');
    StillComplete(s, s');
    QuietCommits(s, s');
  }

  /** Only node `n` changes. */
  ghost predicate OneNode(s: State, s': State, n: string) {
    n in s.nodes && s'.peers == s.peers && n in s'.nodes && s'.nodes == s.nodes[n := s'.nodes[n]]
  }

  lemma OneNodeConfig(s: State, s': State, n: string)
    requires ConfigOk(s) && NodesOk(s) && OneNode(s, s', n) && NodeOk(s'.nodes[n], s.peers[n])
    ensures ConfigOk(s') && NodesOk(s') && s'.nodes.Keys == s.nodes.Keys
  {
    assert s'.nodes.Keys == s.nodes.Keys;
  }

  lemma OneNodeStill(s: State, s': State, n: string)
    requires OneNode(s, s', n) && StillNode(s.nodes[n], s'.nodes[n])
    requires s'.appends == s.appends && s'.acks == s.acks && s'.reigns == s.reigns
    ensures Still(s, s')
  {
    assert s'.nodes.Keys == s.nodes.Keys;
  }

  lemma OneNodeQuiet(s: State, s': State, n: string)
    requires OneNode(s, s', n) && QuietNode(s.nodes[n], s'.nodes[n])
    requires s'.appends == s.appends && s'.acks == s.acks && s'.reigns == s.reigns
    ensures Quiet(s, s')
  {
    OneNodeStill(s, s', n);
  }

  lemma QuietKeeps(s: State, s': State, n: string)
    requires Inv(s) && OneNode(s, s', n) && QuietNode(s.nodes[n], s'.nodes[n])
    requires s'.appends == s.appends && s'.acks == s.acks && s'.reigns == s.reigns
    requires NodeOk(s'.nodes[n], s.peers[n]) && VoteInv(s') && SameBallotLogs(s, s')
    ensures Inv(s')
  {
    OneNodeConfig(s, s', n);
    OneNodeQuiet(s, s', n);
    StillReigns(s, s');
    StillBallotLogs(s, s');
    QuietLogInv(s, s');
  }
}
