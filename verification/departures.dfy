/** When the handlers as written do what the repaired ones do: one if-and-only-if per handler,
    and a concrete input for every departure.

    States are compared after `Sync`, which makes the vote on disk the vote in memory: the
    source leaves a granted vote off the disk (D6), which shows only at the next restart. */
module Departures {
  import opened RaftTypes
  import opened LogMerge
  import opened Commitment
  import opened Restore
  import opened Handlers

  const INT_LIMIT := 0x8000_0000

  function Sync(s: NodeState): (synced: NodeState) {
    s.(disk := s.disk.(vote := s.vote))
  }

  /** Indices and terms fit a C++ int. */
  ghost predicate FitsInt(log: seq<Entry>) {
    |log| <= INT_LIMIT && forall i | 0 <= i < |log| :: log[i].term < INT_LIMIT
  }

  /** What LastLogIndex and LastLogTerm can produce. */
  predicate LastOfSomeLog(req: VoteReq) {
    if req.lastTerm == -1 then req.lastIndex == -1
    else 0 <= req.lastTerm < INT_LIMIT && 0 <= req.lastIndex < INT_LIMIT
  }

  // ----- D3: the vote rule on unsigned values -----

  lemma UpToDateExactIff(req: VoteReq, log: seq<Entry>)
    requires LastOfSomeLog(req) && FitsInt(log)
    ensures UpToDate(AsWritten, req, log) == UpToDate(Repaired, req, log)
       <==> (req.lastTerm == -1 <==> log == [])
  {
    assert U32(-1) == 0xFFFF_FFFF;
    assert forall x | 0 <= x < INT_LIMIT :: U32(x) == x;
  }

  /** D3: a candidate with an empty log gets the vote of a node whose log is not empty. */
  lemma EmptyLogWinsVote(c: Command)
    ensures UpToDate(AsWritten, VoteReq(2, "a", -1, -1), [Entry(1, c)])
    ensures !UpToDate(AsWritten, VoteReq(2, "a", 0, 1), [])
  {
    UpToDateExactIff(VoteReq(2, "a", -1, -1), [Entry(1, c)]);
    UpToDateExactIff(VoteReq(2, "a", 0, 1), []);
  }

  /** The request is of the node's term, or a later one, and the vote is still free for it. */
  predicate VoteIsOpen(s: NodeState, req: VoteReq) {
    req.term > s.term || (req.term == s.term && (s.vote == "" || s.vote == req.candidate))
  }

  predicate VoteGuard(s: NodeState, req: VoteReq) {
    VoteIsOpen(s, req) ==> (req.lastTerm == -1 <==> s.log == [])
  }

  lemma RequestVoteExactIff(s: NodeState, req: VoteReq)
    requires LastOfSomeLog(req) && FitsInt(s.log)
    ensures var (a, ra), (b, rb) := RequestVote(AsWritten, s, req), RequestVote(Repaired, Sync(s), req);
            (Sync(a) == b && ra == rb) <==> VoteGuard(s, req)
  {
    UpToDateExactIff(req, s.log);
    assert Entered(Sync(s), req.term) == Sync(Entered(s, req.term));
  }

  // ----- D6: the vote that is not on disk -----

  lemma RestartExactIff(s: NodeState, peers: seq<string>)
    ensures Sync(Restart(AsWritten, s, peers)) == Restart(Repaired, Sync(s), peers)
       <==> s.disk.vote == s.vote && NoFieldFallsBack(s.disk.log)
  {
    RestoreExactIff(s.disk.log);
    var a, b := Restart(AsWritten, s, peers), Restart(Repaired, Sync(s), peers);
    assert a.log == b.log ==> Sync(a) == b.(vote := a.vote, disk := a.disk.(vote := a.vote));
  }

  /** D6: a node that crashes after granting a vote forgets it unless it was on disk before,
      and may grant the same term to somebody else. */
  lemma CrashForgetsVote(s: NodeState, peers: seq<string>, req: VoteReq)
    requires Grants(AsWritten, s, req) && req.candidate != ""
    ensures var after := Restart(AsWritten, RequestVote(AsWritten, s, req).0, peers);
            after.term == (if req.term > s.term then req.term else s.disk.term)
            && (after.vote == req.candidate <==> req.term == s.term && s.disk.vote == req.candidate)
  {
    var t := Entered(s, req.term);
    assert RequestVote(AsWritten, s, req).0.disk == t.disk;
  }

  // ----- D2 and D4: vote replies and promotion -----

  /** The two index maps have exactly the peers as keys. */
  ghost predicate Tracks(s: NodeState, peers: seq<string>) {
    forall p :: (p in s.next <==> p in peers) && (p in s.matched <==> p in peers)
  }

  predicate PromoteGuard(s: NodeState, peers: seq<string>) {
    forall p | p in peers :: Get(s.matched, p) == -1 && 0 <= Get(s.next, p) <= |s.log|
  }

  lemma PromoteExactIff(s: NodeState, peers: seq<string>)
    requires Tracks(s, peers)
    ensures Sync(PromoteToLeader(AsWritten, s, peers)) == PromoteToLeader(Repaired, Sync(s), peers)
       <==> PromoteGuard(s, peers)
  {
    var a, b := Sync(PromoteToLeader(AsWritten, s, peers)), PromoteToLeader(Repaired, Sync(s), peers);
    assert b == a.(matched := b.matched, next := b.next);
    if PromoteGuard(s, peers) {
      assert a.matched == b.matched;
      assert a.next == b.next;
    } else if a == b {
      forall p | p in peers ensures Get(s.matched, p) == -1 && 0 <= Get(s.next, p) <= |s.log| {
        assert Get(a.matched, p) == Get(b.matched, p) == -1;
        assert Get(a.next, p) == Get(b.next, p);
      }
    }
  }

  lemma {:induction false} NoneMatch(peers: seq<string>, matched: map<string, int>, i: int)
    requires forall p | p in peers :: Get(matched, p) < i
    ensures MatchCount(peers, matched, i) == 0
  {
    if peers != [] {
      assert peers[0] in peers;
      forall p | p in peers[1..] ensures Get(matched, p) < i { assert p in peers; }
      NoneMatch(peers[1..], matched, i);
    }
  }

  /** A leader with one entry of its term, the last one, commits it or nothing. */
  lemma OnlyLastCommits(s: NodeState, peers: seq<string>)
    requires -1 <= s.commit < |s.log| - 1 && -1 <= s.applied
    requires s.log[|s.log| - 1].term == s.term
    requires forall i | s.commit < i < |s.log| - 1 :: s.log[i].term != s.term
    ensures var last := |s.log| - 1;
            AdvanceCommit(s, peers).commit
              == if (1 + MatchCount(peers, s.matched, last)) * 2 > |peers| + 1 then last else s.commit
  {
    hide MatchCount;
    var to := AdvanceBelow(s, peers, |s.log|);
    AdvanceBelowIsGreatest(s, peers, |s.log|);
    assert Committable(s, peers, |s.log| - 1) == ((1 + MatchCount(peers, s.matched, |s.log| - 1)) * 2 > |peers| + 1);
    assert AdvanceCommit(s, peers).commit == to;
  }

  lemma SubmittedFields(mode: Mode, s: NodeState, peers: seq<string>, e: Entry)
    ensures var t := Submit(PromoteToLeader(mode, s, peers), e);
            && t.log == s.log + [e] && t.term == s.term && t.commit == s.commit && t.applied == s.applied
            && (mode == AsWritten ==> t.matched == s.matched)
            && (mode == Repaired ==> forall p | p in peers :: Get(t.matched, p) == -1)
  {
  }

  /** D4: a new leader, with no entry of its term yet, that submits one and then runs the commit
      loop commits it at once if and only if a majority of the match indices it has kept reach past
      its log; with the indices reset it never does. */
  lemma KeptMatchCommitsIff(s: NodeState, peers: seq<string>, cmd: Command)
    requires -1 <= s.commit < |s.log| && -1 <= s.applied && peers != []
    requires forall i | s.commit < i < |s.log| :: s.log[i].term != s.term
    ensures var kept := Submit(PromoteToLeader(AsWritten, s, peers), Entry(s.term, cmd));
            AdvanceCommit(kept, peers).commit == |s.log| <==>
              (1 + MatchCount(peers, s.matched, |s.log|)) * 2 > |peers| + 1
    ensures var reset := Submit(PromoteToLeader(Repaired, s, peers), Entry(s.term, cmd));
            AdvanceCommit(reset, peers).commit == s.commit
  {
    hide AdvanceCommit, Submit, PromoteToLeader, MatchCount;
    SubmittedFields(AsWritten, s, peers, Entry(s.term, cmd));
    SubmittedFields(Repaired, s, peers, Entry(s.term, cmd));
    OnlyLastCommits(Submit(PromoteToLeader(AsWritten, s, peers), Entry(s.term, cmd)), peers);
    var reset := Submit(PromoteToLeader(Repaired, s, peers), Entry(s.term, cmd));
    NoneMatch(peers, reset.matched, |s.log|);
    OnlyLastCommits(reset, peers);
  }

  predicate Wins(s: NodeState, peers: seq<string>) { (s.votes + 1) * 2 > |peers| + 1 }

  /** The reply makes the handler do something beyond ignoring it. */
  predicate VoteReplyActs(s: NodeState, req: VoteReq, rep: VoteRep) {
    s.role == Candidate && (rep.term > req.term || (rep.term == req.term && rep.granted))
  }

  predicate VoteReplyGuard(s: NodeState, peers: seq<string>, req: VoteReq, rep: VoteRep) {
    VoteReplyActs(s, req, rep) ==>
      req.term == s.term && (rep.term == req.term && Wins(s, peers) ==> PromoteGuard(s, peers))
  }

  lemma VoteReplyExactIff(s: NodeState, peers: seq<string>, req: VoteReq, rep: VoteRep)
    requires Tracks(s, peers)
    ensures Sync(VoteReply(AsWritten, s, peers, req, rep)) == VoteReply(Repaired, Sync(s), peers, req, rep)
       <==> VoteReplyGuard(s, peers, req, rep)
  {
    if VoteReplyActs(s, req, rep) && rep.term == req.term {
      var t := s.(votes := s.votes + 1);
      PromoteExactIff(t, peers);
      assert PromoteGuard(t, peers) == PromoteGuard(s, peers);
      assert Sync(t) == Sync(s).(votes := s.votes + 1);
      if req.term != s.term {
        assert Sync(VoteReply(AsWritten, s, peers, req, rep)).role == Leader
            || Sync(VoteReply(AsWritten, s, peers, req, rep)).votes == s.votes + 1;
      }
    }
  }

  /** D2: a reply to the request of an earlier term elects a leader of the current term. */
  lemma StaleVoteElects(s: NodeState, peers: seq<string>)
    requires s.role == Candidate && s.votes == 1 && |peers| == 2 && s.term == 2
    ensures VoteReply(AsWritten, s, peers, VoteReq(1, "a", -1, -1), VoteRep(1, true)).role == Leader
    ensures VoteReply(Repaired, s, peers, VoteReq(1, "a", -1, -1), VoteRep(1, true)) == s
  {
  }

  /** D2: a late reply takes the term of the node down. */
  lemma StaleReplyLowersTerm(s: NodeState, peers: seq<string>)
    requires s.role == Candidate && s.term == 5
    ensures VoteReply(AsWritten, s, peers, VoteReq(1, "a", -1, -1), VoteRep(2, false)).term == 2
  {
  }

  // ----- D1: AppendEntries -----

  predicate AppendGuard(s: NodeState, req: AppendReq) {
    Takes(s, req) ==>
      var k := Agreeing(s.log, req.prevIndex + 1, req.entries);
      k == |req.entries| || req.prevIndex + 1 + k == |s.log|
  }

  lemma AppendTakes(s: NodeState, req: AppendReq)
    requires InBounds(AsWritten, s, req) && InBounds(Repaired, Sync(s), req) && Takes(s, req)
    ensures var (a, ra), (b, rb) := AppendEntries(AsWritten, s, req), AppendEntries(Repaired, Sync(s), req);
            (Sync(a) == b && ra == rb) <==> Taken(AsWritten, s, req) == Taken(Repaired, s, req)
  {
    SyncHeard(s, req.term);
    var x, y, t := Taken(AsWritten, s, req), Taken(Repaired, Sync(s), req), Heard(s, req.term);
    TakenLog(t, x, req.commit);
    TakenLog(Sync(t), y, req.commit);
    if x == y { SyncTaken(t, x, req.commit); }
  }

  lemma AppendRefuses(s: NodeState, req: AppendReq)
    requires InBounds(AsWritten, s, req) && InBounds(Repaired, Sync(s), req) && !Takes(s, req)
    ensures var (a, ra), (b, rb) := AppendEntries(AsWritten, s, req), AppendEntries(Repaired, Sync(s), req);
            Sync(a) == b && ra == rb
  {
    SyncHeard(s, req.term);
  }

  lemma AppendEntriesExactIff(s: NodeState, req: AppendReq)
    requires InBounds(AsWritten, s, req) && InBounds(Repaired, Sync(s), req)
    ensures var (a, ra), (b, rb) := AppendEntries(AsWritten, s, req), AppendEntries(Repaired, Sync(s), req);
            (Sync(a) == b && ra == rb) <==> AppendGuard(s, req)
  {
    hide AppendEntries, Sync, Taken;
    if Takes(s, req) {
      AppendTakes(s, req);
      TakenGuard(s, req);
    } else {
      AppendRefuses(s, req);
    }
  }

  lemma TakenGuard(s: NodeState, req: AppendReq)
    requires Takes(s, req)
    ensures Taken(AsWritten, s, req) == Taken(Repaired, s, req) <==> AppendGuard(s, req)
  {
    InsertIsReplaceIffNoConflict(s.log, req.prevIndex, req.entries);
  }

  lemma SyncHeard(s: NodeState, term: nat)
    ensures Heard(Sync(s), term) == Sync(Heard(s, term))
    ensures Heard(s, term).commit == s.commit && Heard(s, term).applied == s.applied && Heard(s, term).log == s.log
  {
    assert Entered(Sync(s), term) == Sync(Entered(s, term));
  }

  lemma TakenLog(t: NodeState, log: seq<Entry>, commit: int)
    requires -1 <= t.applied && (commit > t.commit ==> commit < |log|)
    ensures FollowCommit(WithLog(t, log), commit).log == log
  {
  }

  lemma SyncTaken(t: NodeState, log: seq<Entry>, commit: int)
    requires -1 <= t.applied && (commit > t.commit ==> commit < |log|)
    ensures Sync(FollowCommit(WithLog(t, log), commit)) == FollowCommit(WithLog(Sync(t), log), commit)
  {
    assert Sync(WithLog(t, log)) == WithLog(Sync(t), log);
  }

  // ----- D2 and D5: replies to AppendEntries -----

  /** A reset would not change the state at all. */
  predicate AlreadyReset(s: NodeState, term: nat) {
    s.role == Follower && s.term == term && s.vote == "" && s.votes == 0 && s.disk.term == term
  }

  /** Taking the reply would set both indices to what they are and commit nothing. */
  predicate NothingToTake(s: NodeState, peers: seq<string>, peer: string, req: AppendReq)
    requires -1 <= s.commit
  {
    && req.entries == [] && peer in s.next && peer in s.matched && s.matched[peer] == s.next[peer] - 1
    && forall i | s.commit < i < |s.log| :: !Committable(s, peers, i)
  }

  predicate AppendReplyGuard(s: NodeState, peers: seq<string>, peer: string, req: AppendReq, rep: AppendRep)
    requires -1 <= s.commit
  {
    if rep.term > req.term then req.term == s.term || AlreadyReset(s, rep.term)
    else if s.role != Leader || rep.term != s.term then true
    else if req.term == s.term then Get(s.next, peer) == req.prevIndex + 1
    else rep.success && NothingToTake(s, peers, peer, req)
  }

  lemma ReplyRefused(s: NodeState, peers: seq<string>, peer: string, req: AppendReq, rep: AppendRep)
    requires -1 <= s.commit && -1 <= s.applied && rep.term <= req.term == s.term
    requires s.role == Leader && rep.term == s.term && !rep.success
    ensures Sync(AppendReply(AsWritten, s, peers, peer, req, rep))
            == AppendReply(Repaired, Sync(s), peers, peer, req, rep)
       <==> AppendReplyGuard(s, peers, peer, req, rep)
  {
    var a, b := AppendReply(AsWritten, s, peers, peer, req, rep), AppendReply(Repaired, Sync(s), peers, peer, req, rep);
    assert Get(a.next, peer) == Get(s.next, peer) - 1 && Get(b.next, peer) == req.prevIndex;
  }

  lemma ReplyAdvances(mode: Mode, s: NodeState, peers: seq<string>, peer: string, req: AppendReq, rep: AppendRep)
    requires -1 <= s.commit && -1 <= s.applied && rep.term <= req.term == s.term
    requires s.role == Leader && rep.term == s.term && rep.success
    ensures AppendReply(mode, s, peers, peer, req, rep)
         == var next := if mode == AsWritten then Get(s.next, peer) else req.prevIndex + 1;
            AdvanceCommit(Matched(s, peer, next + |req.entries|), peers)
  {
  }

  lemma MatchedIff(s: NodeState, peers: seq<string>, peer: string, m: int, n: int)
    requires -1 <= s.commit && -1 <= s.applied
    ensures var a, b := AdvanceCommit(Matched(s, peer, m), peers), AdvanceCommit(Matched(Sync(s), peer, n), peers);
            Sync(a) == b <==> m == n
  {
    if m == n {
      SyncAdvance(Matched(s, peer, n), peers);
    } else {
      assert Get(Matched(s, peer, m).next, peer) == m && Get(Matched(Sync(s), peer, n).next, peer) == n;
    }
  }

  lemma ReplyTaken(s: NodeState, peers: seq<string>, peer: string, req: AppendReq, rep: AppendRep)
    requires -1 <= s.commit && -1 <= s.applied && rep.term <= req.term == s.term
    requires s.role == Leader && rep.term == s.term && rep.success
    ensures Sync(AppendReply(AsWritten, s, peers, peer, req, rep))
            == AppendReply(Repaired, Sync(s), peers, peer, req, rep)
       <==> Get(s.next, peer) == req.prevIndex + 1
  {
    hide AdvanceCommit, AppendReply;
    var m, n := Get(s.next, peer) + |req.entries|, req.prevIndex + 1 + |req.entries|;
    ReplyAdvances(AsWritten, s, peers, peer, req, rep);
    ReplyAdvances(Repaired, Sync(s), peers, peer, req, rep);
    MatchedIff(s, peers, peer, m, n);
  }

  lemma AdvanceNowhere(s: NodeState, peers: seq<string>)
    requires -1 <= s.commit && -1 <= s.applied
    ensures AdvanceCommit(s, peers) == s <==> forall i | s.commit < i < |s.log| :: !Committable(s, peers, i)
  {
    var to := AdvanceBelow(s, peers, |s.log|);
    AdvanceBelowIsGreatest(s, peers, |s.log|);
    if to != s.commit { assert AdvanceCommit(s, peers).commit == to; }
  }

  lemma TakenFromLater(s: NodeState, peers: seq<string>, peer: string, req: AppendReq)
    requires -1 <= s.commit && -1 <= s.applied
    ensures AdvanceCommit(Matched(s, peer, Get(s.next, peer) + |req.entries|), peers) == s
       <==> NothingToTake(s, peers, peer, req)
  {
    var t := Matched(s, peer, Get(s.next, peer) + |req.entries|);
    AdvanceNowhere(t, peers);
    if req.entries == [] && peer in s.next && peer in s.matched && s.matched[peer] == s.next[peer] - 1 {
      assert t.next == s.next && t.matched == s.matched;
      assert t == s;
    } else {
      assert Get(t.next, peer) == Get(s.next, peer) + |req.entries|;
      assert peer in t.next && peer in t.matched && t.matched[peer] == t.next[peer] - 1;
    }
  }

  lemma ReplyFromLater(s: NodeState, peers: seq<string>, peer: string, req: AppendReq, rep: AppendRep)
    requires -1 <= s.commit && -1 <= s.applied && rep.term <= req.term != s.term
    requires s.role == Leader && rep.term == s.term
    ensures Sync(AppendReply(AsWritten, s, peers, peer, req, rep))
            == AppendReply(Repaired, Sync(s), peers, peer, req, rep)
       <==> rep.success && NothingToTake(s, peers, peer, req)
  {
    if rep.success {
      TakenFromLater(s, peers, peer, req);
    } else {
      var a := AppendReply(AsWritten, s, peers, peer, req, rep);
      assert Get(a.next, peer) == Get(s.next, peer) - 1;
    }
  }

  /** D5 and D2: for every reply the two handlers agree exactly when it is not a stale rejection
      with effect, the next index has not moved since the request, and, should the term have gone
      down since (D2), there is nothing to take. */
  lemma AppendReplyExactIff(s: NodeState, peers: seq<string>, peer: string, req: AppendReq, rep: AppendRep)
    requires -1 <= s.commit && -1 <= s.applied
    ensures Sync(AppendReply(AsWritten, s, peers, peer, req, rep))
            == AppendReply(Repaired, Sync(s), peers, peer, req, rep)
       <==> AppendReplyGuard(s, peers, peer, req, rep)
  {
    if rep.term > req.term {
    } else if s.role == Leader && rep.term == s.term {
      if req.term != s.term {
        ReplyFromLater(s, peers, peer, req, rep);
      } else if rep.success {
        ReplyTaken(s, peers, peer, req, rep);
      } else {
        ReplyRefused(s, peers, peer, req, rep);
      }
    }
  }

  lemma SyncAdvance(s: NodeState, peers: seq<string>)
    requires -1 <= s.commit && -1 <= s.applied
    ensures Sync(AdvanceCommit(s, peers)) == AdvanceCommit(Sync(s), peers)
  {
    var r := AdvanceBelow(Sync(s), peers, |s.log|);
    AdvanceBelowIsGreatest(Sync(s), peers, |s.log|);
    forall i | 0 <= i < |s.log| ensures Committable(Sync(s), peers, i) == Committable(s, peers, i) {}
    AdvanceIsMajorityMaximum(s, peers, r);
  }

  /** D5: two heartbeats in flight with the same entry make the leader believe the peer
      holds an entry that does not exist yet. */
  lemma SecondReplyOvershoots(s: NodeState, peers: seq<string>, e: Entry)
    requires s.role == Leader && s.log == [e] && s.commit == s.applied == -1 && Get(s.next, "b") == 0
    ensures var req, rep := AppendReq(s.term, "a", -1, -1, [e], -1), AppendRep(s.term, true);
            var once := AppendReply(AsWritten, s, peers, "b", req, rep);
            -1 <= once.commit && -1 <= once.applied
            && Get(AppendReply(AsWritten, once, peers, "b", req, rep).matched, "b") == 1
  {
    var req, rep := AppendReq(s.term, "a", -1, -1, [e], -1), AppendRep(s.term, true);
    var once := AppendReply(AsWritten, s, peers, "b", req, rep);
    assert Get(once.next, "b") == 1;
  }
}
