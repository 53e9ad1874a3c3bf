/** Heartbeats, AppendEntries, its replies, and submissions. */
module Replication {
  import opened RaftTypes
  import opened LogMerge
  import opened Commitment
  import opened Handlers
  import opened Cluster
  import opened Invariant
  import opened Growth
  import opened Votes
  import opened Elections

  // ----- logs against the leader's log -----

  lemma BackedMatch(a: seq<Entry>, b: seq<Entry>, reigns: map<nat, Reign>)
    requires Backed(a, reigns) && Backed(b, reigns)
    ensures Matching(a, b)
  {
    forall i: nat | i < |a| && i < |b| ensures MatchAt(a, b, i) {
      assert BackedAt(a, reigns, i) && BackedAt(b, reigns, i);
    }
  }

  lemma BackedPrefix(a: seq<Entry>, b: seq<Entry>, reigns: map<nat, Reign>)
    requires Backed(b, reigns) && a <= b
    ensures Backed(a, reigns)
  {
    forall i: nat | i < |a| ensures BackedAt(a, reigns, i) {
      assert BackedAt(b, reigns, i);
      assert b[..|a|] == a;
      PrefixBy(a, b, |a|, i + 1);
    }
  }

  /** What is committed is not blocked: the two majorities share a node. */
  lemma CommittedNotBlocked(s: State, t: nat, n: int)
    requires Committed(s, t, n)
    ensures !Blocked(s, t, n)
  {
    if Blocked(s, t, n) {
      var a :| BlockedBy(s, t, n, a);
      var b :| CommittedBy(s, t, n, b);
      var q := QuorumsMeet(s.nodes.Keys, a, b);
    }
  }

  /** Leader Completeness: what is committed in a term is in the log of every later leader. */
  lemma LeaderComplete(s: State, t: nat, n: int, u: nat)
    requires ReignsOk(s) && CompleteOk(s) && Committed(s, t, n) && u in s.reigns && t < u
    ensures Point(s, t, n) && Upto(s, t, n) <= s.reigns[u].base <= s.reigns[u].log
  {
    var r :| CommittedBy(s, t, n, r);
    CommittedNotBlocked(s, t, n);
    assert ReignOk(s, u);
  }

  lemma CoveredLater(s: State, log: seq<Entry>, t: nat, n: int, u: nat)
    requires ReignsOk(s) && CompleteOk(s) && Covers(s, t, n, log) && t < u && u in s.reigns
    ensures log <= s.reigns[u].log
  {
    LeaderComplete(s, t, n, u);
    PrefixBy(s.reigns[t].log, s.reigns[u].log, n, |log|);
  }

  lemma SafeInReign(s: State, log: seq<Entry>, term: nat, u: nat)
    requires ReignsOk(s) && CompleteOk(s) && Safe(s, log, term) && term <= u && u in s.reigns
    ensures log <= s.reigns[u].log
  {
    if log != [] {
      var t: nat, n :| t <= term && Covers(s, t, n, log);
      if t < u { CoveredLater(s, log, t, n, u); }
    }
  }

  // ----- heartbeats -----

  /** The request carries a tail of the node's log and its commit index. */
  ghost predicate IsBeat(st: NodeState, n: string, req: AppendReq) {
    && SliceOf(st.log, req.prevIndex, req.entries) && End(req) == |st.log| && req.prevIndex < |st.log|
    && req.prevTerm == (if req.prevIndex >= 0 then st.log[req.prevIndex].term else -1)
    && req.term == st.term && req.leader == n && req.commit == st.commit
  }

  lemma BeatAppend(s: State, n: string, a: Append)
    requires ConfigOk(s) && ReignsOk(s) && n in s.nodes && s.nodes[n].role == Leader && a.to in s.peers[n]
    requires IsBeat(s.nodes[n], n, a.req) && -1 <= s.nodes[n].commit < |s.nodes[n].log|
    ensures AppendOk(s, a)
  {
    assert ReignOk(s, s.nodes[n].term);
    PeerIsOther(s, n, a.to);
  }

  lemma BeatCommit(s: State, n: string, a: Append)
    requires ReignsOk(s) && CommitsOk(s) && n in s.nodes && s.nodes[n].role == Leader
    requires IsBeat(s.nodes[n], n, a.req) && -1 <= s.nodes[n].commit < |s.nodes[n].log|
    ensures a.req.term in s.reigns && 0 <= a.req.commit + 1 <= |s.reigns[a.req.term].log|
    ensures Safe(s, s.reigns[a.req.term].log[..a.req.commit + 1], a.req.term)
  {
    assert ReignOk(s, s.nodes[n].term);
  }

  lemma BeatStill(s: State, n: string)
    requires Enabled(Repaired, s, HeartbeatFires(n))
    ensures var s' := Beats(s, n);
            Still(s, s') && s'.nodes == s.nodes && s'.calls == s.calls && s'.stood == s.stood
  {
    var s' := Beats(s, n);
    forall m | m in s.nodes ensures StillNode(s.nodes[m], s'.nodes[m]) {}
  }

  lemma BeatVotes(s: State, s': State, n: string)
    requires BaseInv(s) && VoteInv(s) && n in s.nodes
    requires Still(s, s') && s'.nodes == s.nodes && s'.calls == s.calls && s'.stood == s.stood
    ensures BaseInv(s') && VoteInv(s')
  {
    hide VoteInv;
    VotesKept(s, s', n);
    StillReigns(s, s');
  }

  lemma BeatsKeeps(s: State, n: string)
    requires Inv(s) && Enabled(Repaired, s, HeartbeatFires(n))
    ensures Inv(Beats(s, n))
  {
    BeatStill(s, n);
    BeatMessages(s, n);
    BeatMatch(s, Beats(s, n));
    BeatLogs(s, Beats(s, n), n);
  }

  lemma BeatLogs(s: State, s': State, n: string)
    requires Inv(s) && n in s.nodes
    requires Still(s, s') && s'.nodes == s.nodes && s'.calls == s.calls && s'.stood == s.stood
    ensures BaseInv(s') && VoteInv(s') && HeldOk(s') && BallotLogsOk(s') && CompleteOk(s')
  {
    BeatVotes(s, s', n);
    StillHeld(s, s');
    StillComplete(s, s');
    StillBallotLogs(s, s');
  }

  lemma FreshBeat(s: State, n: string, a: Append)
    requires Enabled(Repaired, s, HeartbeatFires(n)) && a in Beats(s, n).appends && a !in s.appends
    requires PointersOk(s.nodes[n], s.peers[n])
    ensures a.to in s.peers[n] && IsBeat(s.nodes[n], n, a.req) && s.nodes[n].role == Leader
  {
    assert a == Append(a.to, Heartbeat(s.nodes[n], n, a.to));
  }

  lemma BeatFresh(s: State, n: string, a: Append)
    requires BaseInv(s) && CommitsOk(s) && Enabled(Repaired, s, HeartbeatFires(n))
    requires a in Beats(s, n).appends && a !in s.appends
    ensures AppendOk(s, a) && Safe(s, s.reigns[a.req.term].log[..a.req.commit + 1], a.req.term)
  {
    assert NodeOk(s.nodes[n], s.peers[n]);
    FreshBeat(s, n, a);
    BeatAppend(s, n, a);
    BeatCommit(s, n, a);
  }

  lemma BeatCarry(s: State, s': State, a: Append)
    requires Still(s, s') && AppendOk(s, a) && Safe(s, s.reigns[a.req.term].log[..a.req.commit + 1], a.req.term)
    ensures AppendOk(s', a) && Safe(s', s'.reigns[a.req.term].log[..a.req.commit + 1], a.req.term)
  {
    StillGrows(s, s');
    SafeGrows(s, s', s.reigns[a.req.term].log[..a.req.commit + 1], a.req.term, a.req.term);
  }

  lemma BeatNew(s: State, n: string)
    requires BaseInv(s) && CommitsOk(s) && Enabled(Repaired, s, HeartbeatFires(n))
    ensures var s' := Beats(s, n);
            forall a | a in s'.appends && a !in s.appends ::
              AppendOk(s', a) && Safe(s', s'.reigns[a.req.term].log[..a.req.commit + 1], a.req.term)
  {
    var s' := Beats(s, n);
    BeatStill(s, n);
    forall a | a in s'.appends && a !in s.appends
      ensures AppendOk(s', a) && Safe(s', s'.reigns[a.req.term].log[..a.req.commit + 1], a.req.term)
    {
      BeatFresh(s, n, a);
      BeatCarry(s, s', a);
    }
  }

  lemma BeatMessages(s: State, n: string)
    requires BaseInv(s) && AppendsOk(s) && AcksOk(s) && CommitsOk(s) && Enabled(Repaired, s, HeartbeatFires(n))
    ensures AppendsOk(Beats(s, n)) && AcksOk(Beats(s, n)) && CommitsOk(Beats(s, n))
  {
    BeatStill(s, n);
    BeatNew(s, n);
    NewMessages(s, Beats(s, n));
  }

  lemma NewMessages(s: State, s': State)
    requires Still(s, s') && s'.nodes == s.nodes && AppendsOk(s) && AcksOk(s) && CommitsOk(s)
    requires forall a | a in s'.appends && a !in s.appends ::
               AppendOk(s', a) && Safe(s', s'.reigns[a.req.term].log[..a.req.commit + 1], a.req.term)
    ensures AppendsOk(s') && AcksOk(s') && CommitsOk(s')
  {
    StillGrows(s, s');
    StillMessages(s, s');
    OldCommits(s, s');
  }

  /** The commit indices of nodes and messages that were there before. */
  lemma OldCommits(s: State, s': State)
    requires Grows(s, s') && CommitsOk(s) && AppendsOk(s) && s'.nodes == s.nodes
    requires forall a | a in s'.appends && a !in s.appends ::
               a.req.term in s'.reigns && 0 <= a.req.commit + 1 <= |s'.reigns[a.req.term].log|
               && Safe(s', s'.reigns[a.req.term].log[..a.req.commit + 1], a.req.term)
    ensures CommitsOk(s')
  {
    forall n | n in s'.nodes && -1 <= s'.nodes[n].commit < |s'.nodes[n].log|
      ensures Safe(s', s'.nodes[n].log[..s'.nodes[n].commit + 1], s'.nodes[n].term)
    {
      SafeGrows(s, s', s.nodes[n].log[..s.nodes[n].commit + 1], s.nodes[n].term, s.nodes[n].term);
    }
    OldMessageCommits(s, s');
  }

  lemma OldMessageCommits(s: State, s': State)
    requires Grows(s, s') && CommitsOk(s) && AppendsOk(s)
    ensures forall a | a in s.appends ::
              a.req.term in s'.reigns && 0 <= a.req.commit + 1 <= |s'.reigns[a.req.term].log|
              && Safe(s', s'.reigns[a.req.term].log[..a.req.commit + 1], a.req.term)
  {
    forall a | a in s.appends
      ensures a.req.term in s'.reigns && 0 <= a.req.commit + 1 <= |s'.reigns[a.req.term].log|
      ensures Safe(s', s'.reigns[a.req.term].log[..a.req.commit + 1], a.req.term)
    {
      assert AppendOk(s, a);
      var x, y := s.reigns[a.req.term].log, s'.reigns[a.req.term].log;
      assert ReignGrows(s.reigns[a.req.term], s'.reigns[a.req.term]);
      assert y[..|x|] == x;
      PrefixBy(x, y, |x|, a.req.commit + 1);
      SafeGrows(s, s', x[..a.req.commit + 1], a.req.term, a.req.term);
    }
  }

  lemma BeatMatch(s: State, s': State)
    requires ConfigOk(s) && MatchOk(s) && s'.nodes == s.nodes && s'.peers == s.peers
    requires s'.acks == s.acks && s'.reigns == s.reigns
    ensures ConfigOk(s') && MatchOk(s')
  {
    forall m, p | m in s'.nodes && s'.nodes[m].role == Leader && p in s'.peers[m] && Get(s'.nodes[m].matched, p) >= 0
      ensures Acked(s', p, s'.nodes[m].term, Get(s'.nodes[m].matched, p) + 1)
    {
    }
  }

  // ----- accepting entries -----

  /** The follower's new log is the old one, when that already extends the leader's log as far
      as the message goes, or the leader's log that far. */
  ghost predicate Accepting(s: State, s': State, a: Append) {
    && a in s.appends && OneNode(s, s', a.to) && a.req.term in s.reigns && a.to in s.peers
    && 0 <= End(a.req) <= |s.reigns[a.req.term].log|
    && s'.calls == s.calls && s'.stood == s.stood && s'.reigns == s.reigns && s'.appends == s.appends
    && s'.acks == s.acks + {Ack(a.to, a.req, AppendRep(a.req.term, true))}
    && var x, y, upto := s.nodes[a.to], s'.nodes[a.to], Upto(s, a.req.term, End(a.req));
       && x.role == y.role == Follower && x.term == y.term == a.req.term && x.vote == y.vote && x.votes == y.votes
       && y.log == (if upto <= x.log then x.log else upto)
       && NodeOk(y, s.peers[a.to]) && y.commit < |y.log| && Safe(s, y.log[..y.commit + 1], y.term)
  }

  lemma TakenLog(s: State, a: Append)
    requires AppendOk(s, a) && Backed(s.nodes[a.to].log, s.reigns) && Backed(s.reigns[a.req.term].log, s.reigns)
    requires Takes(s.nodes[a.to], a.req)
    ensures var upto := Upto(s, a.req.term, End(a.req));
            Taken(Repaired, s.nodes[a.to], a.req) == (if upto <= s.nodes[a.to].log then s.nodes[a.to].log else upto)
  {
    BackedMatch(s.nodes[a.to].log, s.reigns[a.req.term].log, s.reigns);
    MergeOfSlice(s.nodes[a.to].log, s.reigns[a.req.term].log, a.req.prevIndex, a.req.entries);
  }

  lemma DoneInReign(s: State, n: string, t: nat)
    requires ReignsOk(s) && CompleteOk(s) && CommitsOk(s) && n in s.nodes && t in s.reigns && s.nodes[n].term <= t
    requires -1 <= s.nodes[n].commit < |s.nodes[n].log|
    ensures s.nodes[n].log[..s.nodes[n].commit + 1] <= s.reigns[t].log
  {
    SafeInReign(s, s.nodes[n].log[..s.nodes[n].commit + 1], s.nodes[n].term, t);
  }

  /** What a follower with log `prior`, of which `c` entries are committed, has after the merge. */
  lemma MergedLog(prior: seq<Entry>, lead: seq<Entry>, n: nat, c: nat, t: nat)
    requires n <= |lead| && c <= |prior| && prior[..c] <= lead
    requires Sorted(prior) && TermsWithin(prior, t) && Sorted(lead) && TermsWithin(lead, t)
    ensures var log := if lead[..n] <= prior then prior else lead[..n];
            && lead[..n] <= log && Sorted(log) && TermsWithin(log, t)
            && c <= |log| && log[..c] == prior[..c]
  {
  }

  /** The committed part of the follower's log survives, so the commit index stays inside. */
  lemma TakenNode(s: State, a: Append)
    requires ConfigOk(s) && ReignsOk(s) && BackedOk(s) && CompleteOk(s) && CommitsOk(s) && AppendOk(s, a)
    requires NodeOk(s.nodes[a.to], s.peers[a.to]) && Takes(s.nodes[a.to], a.req)
    ensures var st, log, upto := s.nodes[a.to], Taken(Repaired, s.nodes[a.to], a.req), Upto(s, a.req.term, End(a.req));
            && log == (if upto <= st.log then st.log else upto)
            && upto <= log && Sorted(log) && TermsWithin(log, a.req.term)
            && st.commit < |log| && log[..st.commit + 1] == st.log[..st.commit + 1]
  {
    hide Taken, CompleteOk, CommitsOk;
    TakenLog(s, a);
    assert ReignOk(s, a.req.term);
    DoneInReign(s, a.to, a.req.term);
    MergedLog(s.nodes[a.to].log, s.reigns[a.req.term].log, End(a.req), s.nodes[a.to].commit + 1, a.req.term);
  }

  lemma TakenAccepts(s: State, s': State, a: Append, y: NodeState)
    requires ConfigOk(s) && AppendOk(s, a) && a in s.appends
    requires s'.nodes == s.nodes[a.to := y] && s'.acks == s.acks + {Ack(a.to, a.req, AppendRep(a.req.term, true))}
    requires s'.calls == s.calls && s'.stood == s.stood && s'.reigns == s.reigns && s'.appends == s.appends
    requires s'.peers == s.peers
    requires var x, upto := s.nodes[a.to], Upto(s, a.req.term, End(a.req));
       && x.role == y.role == Follower && x.term == y.term == a.req.term && x.vote == y.vote && x.votes == y.votes
       && y.log == (if upto <= x.log then x.log else upto)
    requires NodeOk(y, s.peers[a.to]) && Safe(s, y.log[..y.commit + 1], y.term)
    ensures Accepting(s, s', a)
  {
  }

  /** The follower after it has taken the entries. */
  lemma TakenResult(s: State, a: Append) returns (y: NodeState)
    requires ConfigOk(s) && ReignsOk(s) && BackedOk(s) && CompleteOk(s) && CommitsOk(s) && AppendOk(s, a)
    requires a in s.appends && s.nodes[a.to].term == a.req.term && s.nodes[a.to].role == Follower
    requires NodeOk(s.nodes[a.to], s.peers[a.to]) && Takes(s.nodes[a.to], a.req)
    ensures InBounds(Repaired, s.nodes[a.to], a.req)
    ensures y == FollowCommit(WithLog(s.nodes[a.to], Taken(Repaired, s.nodes[a.to], a.req)), a.req.commit)
    ensures var x, upto := s.nodes[a.to], Upto(s, a.req.term, End(a.req));
       && x.role == y.role == Follower && x.term == y.term == a.req.term && x.vote == y.vote && x.votes == y.votes
       && y.log == (if upto <= x.log then x.log else upto)
    ensures NodeOk(y, s.peers[a.to]) && Safe(s, y.log[..y.commit + 1], y.term)
  {
    hide Taken, BackedOk, CompleteOk, CommitsOk, ReignsOk;
    var st := s.nodes[a.to];
    var log := Taken(Repaired, st, a.req);
    TakenNode(s, a);
    y := FollowCommit(WithLog(st, log), a.req.commit);
    TakenSafe(s, a, y);
  }

  lemma AppendsAccepts(s: State, a: Append)
    requires ConfigOk(s) && ReignsOk(s) && BackedOk(s) && CompleteOk(s) && CommitsOk(s) && AppendOk(s, a)
    requires a in s.appends && s.nodes[a.to].term == a.req.term && s.nodes[a.to].role == Follower
    requires NodeOk(s.nodes[a.to], s.peers[a.to]) && Takes(s.nodes[a.to], a.req)
    ensures InBounds(Repaired, s.nodes[a.to], a.req)
    ensures Accepting(s, Appends(Repaired, s, a), a)
  {
    var y := TakenResult(s, a);
    TakenAccepts(s, Appends(Repaired, s, a), a, y);
  }

  lemma TakenSafe(s: State, a: Append, y: NodeState)
    requires CommitsOk(s) && AppendOk(s, a) && a in s.appends && s.nodes[a.to].term == y.term == a.req.term
    requires var st := s.nodes[a.to];
             && Upto(s, a.req.term, End(a.req)) <= y.log && -1 <= st.commit < |y.log| && st.commit < |st.log|
             && y.log[..st.commit + 1] == st.log[..st.commit + 1]
             && y.commit == (if a.req.commit > st.commit then a.req.commit else st.commit)
    ensures y.commit < |y.log| && Safe(s, y.log[..y.commit + 1], y.term)
  {
    if a.req.commit > s.nodes[a.to].commit {
      PrefixBy(y.log, s.reigns[a.req.term].log, End(a.req), a.req.commit + 1);
    }
  }

  lemma AcceptGrows(s: State, s': State, a: Append)
    requires Accepting(s, s', a)
    ensures Grows(s, s')
  {
    assert s'.nodes.Keys == s.nodes.Keys;
  }

  lemma AcceptBacked(s: State, s': State, a: Append)
    requires BackedOk(s) && Accepting(s, s', a)
    ensures BackedOk(s')
  {
    BackedPrefix(Upto(s, a.req.term, End(a.req)), s.reigns[a.req.term].log, s.reigns);
  }

  lemma AcceptReigns(s: State, s': State, a: Append)
    requires ReignsOk(s) && AppendOk(s, a) && Accepting(s, s', a)
    ensures ReignsOk(s')
  {
    forall t | t in s'.reigns ensures ReignOk(s', t) {
      assert ReignOk(s, t);
    }
  }

  lemma AcceptMessages(s: State, s': State, a: Append)
    requires AppendsOk(s) && AcksOk(s) && Accepting(s, s', a)
    ensures AppendsOk(s') && AcksOk(s')
  {
    assert s'.nodes.Keys == s.nodes.Keys;
    forall b | b in s'.appends ensures AppendOk(s', b) { assert AppendOk(s, b); }
    forall k | k in s'.acks ensures AckOk(s', k) {
      assert AppendOk(s', Append(k.from, k.req));
      if k in s.acks {
        assert AckOk(s, k);
        if k.rep.success && k.from == a.to && s.nodes[a.to].term == k.req.term {
        }
      }
    }
  }

  lemma AcceptMatch(s: State, s': State, a: Append)
    requires ConfigOk(s) && ConfigOk(s') && MatchOk(s) && Accepting(s, s', a)
    ensures MatchOk(s')
  {
    AcceptGrows(s, s', a);
    forall n, p | n in s'.nodes && s'.nodes[n].role == Leader && p in s'.peers[n] && Get(s'.nodes[n].matched, p) >= 0
      ensures Acked(s', p, s'.nodes[n].term, Get(s'.nodes[n].matched, p) + 1)
    {
      AckedGrows(s, s', p, s.nodes[n].term, Get(s.nodes[n].matched, p) + 1);
    }
  }

  lemma AcceptAcked(s: State, s': State, a: Append, q: string, t: nat, n: int)
    requires Accepting(s, s', a) && Acked(s', q, t, n)
    ensures Acked(s, q, t, n) || (q == a.to && t == a.req.term && n <= End(a.req))
  {
    if q != s.reigns[t].leader {
      var k :| k in s'.acks && AckCovers(k, q, t, n);
      assert k in s.acks || k == Ack(a.to, a.req, AppendRep(a.req.term, true));
    }
  }

  lemma AckedTerm(s: State, q: string, t: nat, n: int)
    requires ReignsOk(s) && AcksOk(s) && Acked(s, q, t, n) && q in s.nodes && n >= 0
    ensures t <= s.nodes[q].term
    ensures s.nodes[q].term == t && q != s.reigns[t].leader ==> Upto(s, t, n) <= s.nodes[q].log
  {
    if q == s.reigns[t].leader {
      assert ReignOk(s, t);
    } else {
      var k :| k in s.acks && AckCovers(k, q, t, n);
      assert AckOk(s, k);
      if s.nodes[q].term == t {
        PrefixBy(s.reigns[t].log, s.nodes[q].log, End(k.req), n);
      }
    }
  }

  lemma EarlierHeld(s: State, s': State, a: Append, t: nat, n: int)
    requires ReignsOk(s) && AcksOk(s) && HeldOk(s) && AppendOk(s, a) && Accepting(s, s', a)
    requires Point(s, t, n) && Acked(s, a.to, t, n) && AllLater(s, t, n)
    ensures Upto(s, t, n) <= s'.nodes[a.to].log
  {
    AckedTerm(s, a.to, t, n);
    assert ReignOk(s, a.req.term);
    assert Upto(s, t, n) <= s.reigns[a.req.term].log;
  }

  lemma AcceptHeldBy(s: State, s': State, a: Append, t: nat, n: int)
    requires ReignsOk(s) && AcksOk(s) && HeldOk(s) && AppendOk(s, a) && Accepting(s, s', a)
    requires Point(s, t, n) && Acked(s', a.to, t, n) && AllLater(s, t, n)
    ensures Upto(s, t, n) <= s'.nodes[a.to].log
  {
    AcceptAcked(s, s', a, a.to, t, n);
    if Acked(s, a.to, t, n) {
      EarlierHeld(s, s', a, t, n);
    } else {
      PrefixBy(s.reigns[a.req.term].log, s'.nodes[a.to].log, End(a.req), n);
    }
  }

  lemma AcceptHeldAt(s: State, s': State, a: Append, q: string, t: nat, n: int)
    requires ReignsOk(s) && AcksOk(s) && HeldOk(s) && AppendOk(s, a) && Accepting(s, s', a)
    requires q in s'.nodes && Point(s', t, n) && Acked(s', q, t, n) && AllLater(s', t, n)
    ensures Upto(s', t, n) <= s'.nodes[q].log
  {
    hide ReignsOk, AcksOk, AppendOk;
    AcceptGrows(s, s', a);
    assert Point(s, t, n);
    AllLaterBefore(s, s', t, n);
    if q == a.to { AcceptHeldBy(s, s', a, t, n); } else { AcceptAcked(s, s', a, q, t, n); }
  }

  lemma AcceptHeld(s: State, s': State, a: Append)
    requires ReignsOk(s) && AcksOk(s) && HeldOk(s) && AppendOk(s, a) && Accepting(s, s', a)
    ensures HeldOk(s')
  {
    forall q, t: nat, n | q in s'.nodes && Point(s', t, n) && Acked(s', q, t, n) && AllLater(s', t, n)
      ensures Upto(s', t, n) <= s'.nodes[q].log
    {
      AcceptHeldAt(s, s', a, q, t, n);
    }
  }

  lemma AcceptBallotLogs(s: State, s': State, a: Append)
    requires CallsOk(s) && BallotLogsOk(s) && Accepting(s, s', a)
    ensures BallotLogsOk(s')
  {
    AcceptGrows(s, s', a);
    forall i, t: nat, n | i in s'.calls && Granted(s'.calls[i]) && t < i.term
                       && Point(s', t, n) && Acked(s', i.voter, t, n) && AllLater(s', t, n)
      ensures Upto(s', t, n) <= s'.calls[i].voterLog
    {
      assert Point(s, t, n);
      AllLaterBefore(s, s', t, n);
      AcceptAcked(s, s', a, i.voter, t, n);
      assert CallOk(s, i);
    }
  }

  lemma AcceptComplete(s: State, s': State, a: Append)
    requires CompleteOk(s) && Accepting(s, s', a)
    ensures CompleteOk(s')
  {
    AcceptGrows(s, s', a);
    forall t: nat, n, u | Point(s', t, n) && u in s'.reigns && t < u
      ensures Upto(s', t, n) <= s'.reigns[u].base || Blocked(s', t, n)
    {
      assert Point(s, t, n);
      if !(Upto(s, t, n) <= s.reigns[u].base) { BlockedGrows(s, s', t, n); }
    }
  }

  lemma AcceptSafe(s: State, s': State, a: Append, n: string)
    requires CommitsOk(s) && Accepting(s, s', a)
    requires n in s'.nodes && -1 <= s'.nodes[n].commit < |s'.nodes[n].log|
    ensures Safe(s, s'.nodes[n].log[..s'.nodes[n].commit + 1], s'.nodes[n].term)
  {
    if n != a.to { assert s'.nodes[n] == s.nodes[n]; }
  }

  lemma AcceptCommits(s: State, s': State, a: Append)
    requires CommitsOk(s) && AppendsOk(s) && Accepting(s, s', a)
    ensures CommitsOk(s')
  {
    AcceptGrows(s, s', a);
    forall n | n in s'.nodes && -1 <= s'.nodes[n].commit < |s'.nodes[n].log|
      ensures Safe(s', s'.nodes[n].log[..s'.nodes[n].commit + 1], s'.nodes[n].term)
    {
      AcceptSafe(s, s', a, n);
      SafeGrows(s, s', s'.nodes[n].log[..s'.nodes[n].commit + 1], s'.nodes[n].term, s'.nodes[n].term);
    }
    OldMessageCommits(s, s');
  }

  lemma AcceptVotes(s: State, s': State, a: Append)
    requires VoteInv(s) && Accepting(s, s', a)
    ensures VoteInv(s')
  {
    VotesKept(s, s', a.to);
  }

  lemma AcceptKeeps(s: State, s': State, a: Append)
    requires Inv(s) && Accepting(s, s', a)
    ensures Inv(s')
  {
    assert AppendOk(s, a);
    OneNodeConfig(s, s', a.to);
    AcceptVotes(s, s', a);
    AcceptReigns(s, s', a);
    AcceptBacked(s, s', a);
    AcceptMessages(s, s', a);
    AcceptMatch(s, s', a);
    AcceptHeld(s, s', a);
    AcceptBallotLogs(s, s', a);
    AcceptComplete(s, s', a);
    AcceptCommits(s, s', a);
  }

  // ----- refusing entries -----

  ghost predicate Refusing(s: State, s': State, a: Append, rep: AppendRep) {
    && s'.peers == s.peers && s'.nodes == s.nodes && s'.calls == s.calls && s'.stood == s.stood
    && s'.reigns == s.reigns && s'.appends == s.appends && s'.acks == s.acks + {Ack(a.to, a.req, rep)}
    && a in s.appends && a.to in s.nodes && a.req.term <= s.nodes[a.to].term
    && !rep.success && rep.term >= a.req.term && (rep.term == a.req.term ==> a.req.prevIndex >= 0)
  }

  lemma RefuseAcked(s: State, s': State, a: Append, rep: AppendRep, q: string, t: nat, n: int)
    requires Refusing(s, s', a, rep)
    ensures Acked(s', q, t, n) <==> Acked(s, q, t, n)
  {
    if exists k :: k in s.acks && AckCovers(k, q, t, n) {
      var k :| k in s.acks && AckCovers(k, q, t, n);
      assert k in s'.acks;
    }
  }

  lemma RefuseMessages(s: State, s': State, a: Append, rep: AppendRep)
    requires AppendsOk(s) && AcksOk(s) && Refusing(s, s', a, rep)
    ensures AppendsOk(s') && AcksOk(s')
  {
    forall b | b in s'.appends ensures AppendOk(s', b) { assert AppendOk(s, b); }
    forall k | k in s'.acks ensures AckOk(s', k) {
      assert AppendOk(s', Append(k.from, k.req));
      if k in s.acks { assert AckOk(s, k); }
    }
  }

  lemma RefuseLogs(s: State, s': State, a: Append, rep: AppendRep)
    requires ConfigOk(s) && ConfigOk(s') && Refusing(s, s', a, rep)
    requires MatchOk(s) && HeldOk(s) && BallotLogsOk(s)
    ensures MatchOk(s') && HeldOk(s') && BallotLogsOk(s')
  {
    forall n, p | n in s'.nodes && s'.nodes[n].role == Leader && p in s'.peers[n] && Get(s'.nodes[n].matched, p) >= 0
      ensures Acked(s', p, s'.nodes[n].term, Get(s'.nodes[n].matched, p) + 1)
    {
      RefuseAcked(s, s', a, rep, p, s.nodes[n].term, Get(s.nodes[n].matched, p) + 1);
    }
    forall q, t: nat, n | q in s'.nodes && Point(s', t, n) && Acked(s', q, t, n) && AllLater(s', t, n)
      ensures Upto(s', t, n) <= s'.nodes[q].log
    {
      RefuseAcked(s, s', a, rep, q, t, n);
      assert Point(s, t, n) && AllLater(s, t, n);
    }
    forall i, t: nat, n | i in s'.calls && Granted(s'.calls[i]) && t < i.term
                       && Point(s', t, n) && Acked(s', i.voter, t, n) && AllLater(s', t, n)
      ensures Upto(s', t, n) <= s'.calls[i].voterLog
    {
      RefuseAcked(s, s', a, rep, i.voter, t, n);
      assert Point(s, t, n) && AllLater(s, t, n);
    }
  }

  lemma RefuseComplete(s: State, s': State, a: Append, rep: AppendRep)
    requires Refusing(s, s', a, rep) && CompleteOk(s) && CommitsOk(s) && AppendsOk(s)
    ensures CompleteOk(s') && CommitsOk(s')
  {
    forall t: nat, n, u | Point(s', t, n) && u in s'.reigns && t < u
      ensures Upto(s', t, n) <= s'.reigns[u].base || Blocked(s', t, n)
    {
      assert Point(s, t, n);
      if !(Upto(s, t, n) <= s.reigns[u].base) { BlockedGrows(s, s', t, n); }
    }
    OldCommits(s, s');
  }

  lemma SameReigns(s: State, s': State)
    requires ReignsOk(s) && BackedOk(s) && s'.nodes == s.nodes && s'.reigns == s.reigns
    ensures ReignsOk(s') && BackedOk(s')
  {
    forall t | t in s'.reigns ensures ReignOk(s', t) { assert ReignOk(s, t); }
  }

  lemma RefuseReigns(s: State, s': State, a: Append, rep: AppendRep)
    requires BaseInv(s) && Refusing(s, s', a, rep)
    ensures BaseInv(s')
  {
    SameReigns(s, s');
  }

  lemma RefuseVotes(s: State, s': State, a: Append, rep: AppendRep)
    requires VoteInv(s) && Refusing(s, s', a, rep)
    ensures VoteInv(s')
  {
    VotesKept(s, s', a.to);
  }

  lemma RefuseKeeps(s: State, s': State, a: Append, rep: AppendRep)
    requires Inv(s) && Refusing(s, s', a, rep)
    ensures Inv(s')
  {
    RefuseReigns(s, s', a, rep);
    RefuseVotes(s, s', a, rep);
    RefuseMessages(s, s', a, rep);
    RefuseLogs(s, s', a, rep);
    RefuseComplete(s, s', a, rep);
  }

  // ----- every AppendEntries -----

  /** The state after the moves the handler starts with: the node is in the message's term,
      as a follower, or the message is of an earlier term. */
  function Hearing(s: State, a: Append): (after: State)
    requires a.to in s.nodes
  {
    PutNode(s, a.to, Heard(s.nodes[a.to], a.req.term))
  }

  lemma HearingMoves(s: State, a: Append)
    requires AppendsOk(s) && a in s.appends
    ensures a.to in s.nodes
    ensures a.req.term > s.nodes[a.to].term ==> Bumps(s, a.to, a.req.term)
    ensures a.req.term == s.nodes[a.to].term && s.nodes[a.to].role != Follower ==> StepsDown(s, a.to)
    ensures Hearing(s, a) == s || (a.req.term >= s.nodes[a.to].term
              && Hearing(s, a) == PutNode(s, a.to, ResetToFollower(s.nodes[a.to], a.req.term))
              && (a.req.term == s.nodes[a.to].term ==> s.nodes[a.to].role != Follower))
    ensures Hearing(s, a).appends == s.appends && a.to in Hearing(s, a).nodes
  {
    assert AppendOk(s, a);
    assert s.nodes[a.to := s.nodes[a.to]] == s.nodes;
  }

  lemma HearingKeeps(s: State, a: Append)
    requires Inv(s) && a in s.appends
    ensures a.to in s.nodes && Inv(Hearing(s, a))
  {
    HearingMoves(s, a);
    if Hearing(s, a) != s { ResetKeeps(s, a.to, a.req.term); }
  }

  lemma HeardTwice(st: NodeState, req: AppendReq)
    ensures Heard(Heard(st, req.term), req.term) == Heard(st, req.term)
    ensures Takes(Heard(st, req.term), req) == Takes(st, req)
    ensures InBounds(Repaired, Heard(st, req.term), req) == InBounds(Repaired, st, req)
    ensures Heard(st, req.term).log == st.log
    ensures Takes(st, req) ==> Heard(st, req.term).term == req.term && Heard(st, req.term).role == Follower
    ensures Heard(st, req.term).term >= req.term
  {
  }

  lemma AppendsAfterHearing(s: State, a: Append)
    requires a.to in s.nodes && InBounds(Repaired, s.nodes[a.to], a.req)
    ensures InBounds(Repaired, Hearing(s, a).nodes[a.to], a.req)
    ensures Appends(Repaired, Hearing(s, a), a) == Appends(Repaired, s, a)
  {
    HeardTwice(s.nodes[a.to], a.req);
    var x, y := Appends(Repaired, Hearing(s, a), a), Appends(Repaired, s, a);
    assert x.nodes == y.nodes;
  }

  /** Once the node has heard the term, it takes the entries or refuses them. */
  lemma AppendsCases(s: State, a: Append)
    requires BaseInv(s) && CompleteOk(s) && CommitsOk(s) && AppendOk(s, a) && a in s.appends
    requires Heard(s.nodes[a.to], a.req.term) == s.nodes[a.to]
    ensures InBounds(Repaired, s.nodes[a.to], a.req)
    ensures var s' := Appends(Repaired, s, a);
            Accepting(s, s', a) || Refusing(s, s', a, AppendRep(s.nodes[a.to].term, false))
  {
    var st := s.nodes[a.to];
    HeardTwice(st, a.req);
    assert NodeOk(st, s.peers[a.to]);
    if Takes(st, a.req) { AppendsAccepts(s, a); } else { AppendsRefuses(s, a); }
  }

  lemma AppendsRefuses(s: State, a: Append)
    requires AppendOk(s, a) && a in s.appends && Heard(s.nodes[a.to], a.req.term) == s.nodes[a.to]
    requires !Takes(s.nodes[a.to], a.req) && -1 <= s.nodes[a.to].applied && s.nodes[a.to].term >= a.req.term
    ensures InBounds(Repaired, s.nodes[a.to], a.req)
    ensures Refusing(s, Appends(Repaired, s, a), a, AppendRep(s.nodes[a.to].term, false))
  {
    assert s.nodes[a.to := s.nodes[a.to]] == s.nodes;
  }

  lemma HeardKeeps(s: State, s': State, a: Append)
    requires Inv(s) && a.to in s.nodes
             && (Accepting(s, s', a) || Refusing(s, s', a, AppendRep(s.nodes[a.to].term, false)))
    ensures Inv(s')
  {
    if Accepting(s, s', a) {
      AcceptKeeps(s, s', a);
    } else {
      RefuseKeeps(s, s', a, AppendRep(s.nodes[a.to].term, false));
    }
  }

  lemma HearingCases(s: State, a: Append)
    requires Inv(s) && a in s.appends
    ensures a.to in s.nodes && a.to in Hearing(s, a).nodes && Inv(Hearing(s, a))
    ensures InBounds(Repaired, Hearing(s, a).nodes[a.to], a.req)
    ensures var t := Hearing(s, a);
            var s' := Appends(Repaired, t, a);
            Accepting(t, s', a) || Refusing(t, s', a, AppendRep(t.nodes[a.to].term, false))
  {
    HearingMoves(s, a);
    HearingKeeps(s, a);
    HeardTwice(s.nodes[a.to], a.req);
    var t := Hearing(s, a);
    assert AppendOk(t, a);
    AppendsCases(t, a);
  }

  lemma AppendArrivesKeeps(s: State, a: Append)
    requires Inv(s) && Enabled(Repaired, s, AppendArrives(a))
    ensures Inv(Appends(Repaired, s, a))
  {
    hide Inv;
    HearingCases(s, a);
    AppendsAfterHearing(s, a);
    HeardKeeps(Hearing(s, a), Appends(Repaired, s, a), a);
  }

  /** D8: no reachable state has a message whose commit index reaches past what the
      follower's log will hold, so the off-by-one clamp never takes effect. */
  lemma ClampUnreachable(s: State, a: Append)
    requires ConfigOk(s) && NodesOk(s) && BackedOk(s) && AppendsOk(s) && a in s.appends
    ensures a.to in s.nodes && InBounds(Repaired, s.nodes[a.to], a.req)
    ensures a.req.commit < End(a.req)
    ensures Takes(s.nodes[a.to], a.req) ==> End(a.req) <= |Taken(Repaired, s.nodes[a.to], a.req)|
  {
    assert AppendOk(s, a);
    assert NodeOk(s.nodes[a.to], s.peers[a.to]);
  }
}
