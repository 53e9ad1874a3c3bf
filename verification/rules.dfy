/** What each handler leaves behind, in both modes and on the fields of the node: not only what it
    must never do, but what it always does. */
module Rules {
  import opened RaftTypes
  import opened LogMerge
  import opened Commitment
  import opened Restore
  import opened Handlers
  import opened Departures
  import opened Cluster
  import opened Indices

  function Max(a: int, b: int): (greatest: int) { if a >= b then a else b }

  // ----- votes -----

  /** A log ends in a later term, or in the same one and is not shorter; an empty log beats only
      an empty one. */
  ghost predicate NotBehind(theirs: seq<Entry>, mine: seq<Entry>) {
    || mine == []
    || (theirs != [] &&
        var a, b := theirs[|theirs| - 1].term, mine[|mine| - 1].term;
        a > b || (a == b && |theirs| >= |mine|))
  }

  /** D3: as written an empty log beats every log, and only an empty one beats an empty one. */
  ghost predicate Wins(mode: Mode, theirs: seq<Entry>, mine: seq<Entry>) {
    if mode == Repaired then NotBehind(theirs, mine)
    else theirs == [] || (mine != [] && NotBehind(theirs, mine))
  }

  ghost predicate VoteIsFree(s: NodeState, term: nat, candidate: string) {
    term > s.term || (term == s.term && (s.vote == "" || s.vote == candidate))
  }

  /** The request of a candidate of the term whose log is `theirs`. */
  ghost predicate SentWith(req: VoteReq, theirs: seq<Entry>) {
    && req.lastIndex == |theirs| - 1
    && req.lastTerm == (if theirs == [] then -1 else theirs[|theirs| - 1].term)
  }

  lemma ComparesLogs(mode: Mode, req: VoteReq, theirs: seq<Entry>, mine: seq<Entry>)
    requires SentWith(req, theirs) && (mode == AsWritten ==> FitsInt(theirs) && FitsInt(mine))
    ensures UpToDate(mode, req, mine) <==> Wins(mode, theirs, mine)
  {
    assert U32(-1) == 0xFFFF_FFFF;
    assert forall x | 0 <= x < INT_LIMIT :: U32(x) == x;
  }

  /** A vote is granted if and only if it is free and the candidate's log wins. */
  lemma GrantedIff(mode: Mode, s: NodeState, req: VoteReq, theirs: seq<Entry>)
    requires SentWith(req, theirs) && (mode == AsWritten ==> FitsInt(theirs) && FitsInt(s.log))
    ensures RequestVote(mode, s, req).1.granted
       <==> VoteIsFree(s, req.term, req.candidate) && Wins(mode, theirs, s.log)
  {
    ComparesLogs(mode, req, theirs, s.log);
  }

  /** So a free vote goes to every candidate whose log is the voter's, extends it without going back
      to an earlier term, or ends in a later term; as written, unless the one log is empty and the
      other is not (D3). */
  lemma FreeVoteGranted(mode: Mode, s: NodeState, c: NodeState, self: string)
    requires VoteIsFree(s, c.term, self)
    requires mode == AsWritten ==> FitsInt(s.log) && FitsInt(c.log) && (s.log == [] <==> c.log == [])
    requires c.log == s.log || s.log == [] || (c.log != [] &&
               var a, b := c.log[|c.log| - 1].term, s.log[|s.log| - 1].term;
               a > b || (s.log <= c.log && a == b))
    ensures RequestVote(mode, s, VoteRequest(c, self)).1.granted
  {
    GrantedIff(mode, s, VoteRequest(c, self), c.log);
  }

  /** The voter afterwards, whatever the answer: never behind the request, and the answer carries
      the term it then is in. */
  lemma VoterAfter(mode: Mode, s: NodeState, req: VoteReq)
    ensures var (t, rep) := RequestVote(mode, s, req);
            && rep.term == t.term == Max(s.term, req.term)
            && t == s.(term := t.term, role := if req.term > s.term then Follower else s.role,
                       votes := if req.term > s.term then 0 else s.votes,
                       vote := if rep.granted then req.candidate else if req.term > s.term then "" else s.vote,
                       disk := Disk(if req.term > s.term then req.term else s.disk.term,
                                    if rep.granted && mode == Repaired then req.candidate
                                    else if req.term > s.term then "" else s.disk.vote,
                                    s.disk.log))
  {
  }

  /** An answer takes the candidate to the voter's term if and only if it is there already or still
      waits for it: as a candidate, when repaired of the very term it asked in. */
  lemma VoteReplyTeachesIff(mode: Mode, s: NodeState, peers: seq<string>, req: VoteReq, rep: VoteRep)
    requires rep.term >= req.term
    ensures VoteReply(mode, s, peers, req, rep).term >= rep.term
       <==> s.term >= rep.term
            || (rep.term > req.term && s.role == Candidate && (mode == AsWritten || req.term == s.term))
  {
  }

  /** A grant of the current term counts, and wins exactly with a strict majority. The winner keeps its
      indices as written; repaired it knows of no match and points into its log. */
  lemma GrantCounts(mode: Mode, s: NodeState, peers: seq<string>, req: VoteReq)
    requires s.role == Candidate && req.term == s.term
    ensures var t := VoteReply(mode, s, peers, req, VoteRep(s.term, true));
            && t.term == s.term && t.log == s.log && t.vote == s.vote
            && (t.role == Leader <==> (s.votes + 1) * 2 > |peers| + 1)
            && (t.role != Leader ==> t == s.(votes := s.votes + 1))
            && (t.role == Leader ==> t == s.(role := Leader, votes := 0, next := t.next, matched := t.matched))
            && (t.role == Leader && mode == AsWritten ==> t.next == s.next && t.matched == s.matched)
            && (t.role == Leader && mode == Repaired ==> forall p | p in peers ::
                  && Get(t.matched, p) == -1
                  && Get(t.next, p) == if 0 <= Get(s.next, p) <= |s.log| then Get(s.next, p) else |s.log|)
  {
  }

  // ----- AppendEntries at the follower -----

  ghost predicate FollowsCheck(s: NodeState, req: AppendReq) {
    && req.term >= s.term
    && (req.prevIndex == -1 || (0 <= req.prevIndex < |s.log| && s.log[req.prevIndex].term == req.prevTerm))
  }

  lemma RefuseFields(mode: Mode, s: NodeState, req: AppendReq)
    requires InBounds(mode, s, req) && !Takes(s, req)
    ensures AppendEntries(mode, s, req) == (Heard(s, req.term), AppendRep(Heard(s, req.term).term, false))
  {
  }

  lemma CommitFields(s: NodeState, leaderCommit: int)
    requires -1 <= s.applied && (leaderCommit > s.commit ==> leaderCommit < |s.log|)
    ensures var t := FollowCommit(s, leaderCommit);
            && t == s.(commit := Max(s.commit, leaderCommit), applied := t.applied, queue := t.queue)
            && (s.commit == s.applied ==> t.applied == t.commit)
            && (s.commit == s.applied < t.commit ==> t.queue == s.queue + t.log[s.commit + 1..t.commit + 1])
            && (s.commit == t.commit ==> t.queue == s.queue)
  {
  }

  lemma HeardFields(s: NodeState, term: nat, log: seq<Entry>)
    requires term >= s.term
    ensures var t := WithLog(Heard(s, term), log);
            && t.term == Heard(s, term).term == term && t.role == Follower && t.log == log
            && t.commit == s.commit && t.applied == s.applied && t.queue == s.queue
            && t.next == s.next && t.matched == s.matched
  {
  }

  /** From `s` to `t` the commit index goes up to `commit`, if it was lower, and what that commits is
      pushed. */
  ghost predicate Follows(s: NodeState, t: NodeState, commit: int) {
    && -1 <= s.commit && t.commit == t.applied == Max(s.commit, commit)
    && if s.commit < t.commit then t.commit < |t.log| && t.queue == s.queue + t.log[s.commit + 1..t.commit + 1]
       else t.queue == s.queue
  }

  lemma FollowFields(mode: Mode, s: NodeState, req: AppendReq)
    requires InBounds(mode, s, req) && Takes(s, req)
    ensures var (t, rep) := AppendEntries(mode, s, req);
            && rep == AppendRep(t.term, true) && t.term == req.term && t.role == Follower
            && t.next == s.next && t.matched == s.matched && t.log == Taken(mode, s, req)
            && (s.commit == s.applied ==> Follows(s, t, req.commit))
  {
    var log := Taken(mode, s, req);
    HeardFields(s, req.term, log);
    CommitFields(WithLog(Heard(s, req.term), log), req.commit);
    hide FollowCommit, Taken, Heard, WithLog;
  }

  /** A message is taken if and only if it is not of an earlier term and follows an entry the node has.
      Whoever hears a message of its own or a later term follows that term. A refusal changes nothing
      else. */
  lemma FollowerAfter(mode: Mode, s: NodeState, req: AppendReq)
    requires InBounds(mode, s, req)
    ensures var (t, rep) := AppendEntries(mode, s, req);
            && (rep.success <==> FollowsCheck(s, req))
            && rep.term == t.term == Max(s.term, req.term)
            && (req.term >= s.term ==> t.role == Follower)
            && (!rep.success ==> && t.log == s.log && t.commit == s.commit && t.applied == s.applied
                                 && t.queue == s.queue && t.disk.log == s.disk.log)
            && (req.term < s.term ==> t == s)
            && t.next == s.next && t.matched == s.matched
  {
    if Takes(s, req) { FollowFields(mode, s, req); } else { hide AppendEntries; RefuseFields(mode, s, req); }
    hide AppendEntries;
  }

  /** The vote goes with the term, or with the role of a candidate or leader that hears its own term
      (D7); and the disk follows the memory. */
  lemma HearingClears(mode: Mode, s: NodeState, req: AppendReq)
    requires InBounds(mode, s, req)
    ensures var t := AppendEntries(mode, s, req).0;
            var resets := req.term > s.term || (req.term == s.term && s.role != Follower);
            && t.vote == (if resets then "" else s.vote) && t.votes == (if resets then 0 else s.votes)
            && t.disk == Disk(if resets then req.term else s.disk.term, if resets then "" else s.disk.vote,
                              if t.log == s.log then s.disk.log else t.log)
  {
    hide Taken;
  }

  /** Everything committed has been pushed, in order. */
  ghost predicate PushedAll(s: NodeState) {
    -1 <= s.commit == s.applied < |s.log| && s.queue == s.log[..s.commit + 1]
  }

  /** A follower that takes a message commits as far as the leader has, if it had not yet, and pushes
      what it commits. */
  lemma FollowerCommits(mode: Mode, s: NodeState, req: AppendReq)
    requires InBounds(mode, s, req) && FollowsCheck(s, req) && s.commit == s.applied
    ensures Follows(s, AppendEntries(mode, s, req).0, req.commit)
  {
    FollowFields(mode, s, req);
    hide AppendEntries;
  }

  /** The entries of the message have the terms of the committed entries they fall on. */
  ghost predicate AgreesBelowCommit(s: NodeState, req: AppendReq) {
    forall j | 0 <= j < |req.entries| && 0 <= req.prevIndex + 1 + j <= s.commit && req.prevIndex + 1 + j < |s.log| ::
      s.log[req.prevIndex + 1 + j].term == req.entries[j].term
  }

  lemma AgreesIff(s: NodeState, req: AppendReq, k: nat)
    requires -1 <= req.prevIndex < |s.log| && -1 <= s.commit < |s.log|
    requires FirstDisagreement(s.log, req.prevIndex + 1, req.entries, k)
    ensures AgreesBelowCommit(s, req) <==> k == |req.entries| || req.prevIndex + 1 + k > s.commit
  {
  }

  lemma FrontStays(mode: Mode, before: seq<Entry>, at: nat, added: seq<Entry>, after: seq<Entry>, c: int)
    requires ChangedAt(mode, before, at, added, after) && -1 <= c < |before| && (added == [] || c < at)
    ensures c < |after| && after[..c + 1] == before[..c + 1]
  {
    if added == [] { assert forall i | 0 <= i < |before| :: after[i] == before[i]; }
  }

  lemma AddedStands(mode: Mode, before: seq<Entry>, at: nat, added: seq<Entry>, after: seq<Entry>)
    requires ChangedAt(mode, before, at, added, after) && added != []
    ensures at < |after| && after[at] == added[0]
  {
    assert after[at + 0] == added[0];
  }

  lemma RestDiffers(log: seq<Entry>, at: nat, entries: seq<Entry>, k: nat)
    requires FirstDisagreement(log, at, entries, k)
    ensures k <= |entries| && at + k <= |log|
    ensures k < |entries| && at + k < |log| ==> entries[k..] != [] && entries[k..][0].term != log[at + k].term
    ensures k == |entries| ==> entries[k..] == []
  {
  }

  /** What the merge does to the part of the log that has been pushed. */
  lemma MergeKeeps(mode: Mode, log: seq<Entry>, prev: int, entries: seq<Entry>, k: nat, c: int)
    requires -1 <= prev < |log| && FirstDisagreement(log, prev + 1, entries, k)
    requires -1 <= c < |log| && (k == |entries| || c < prev + 1 + k)
    ensures var after := Merge(mode, log, prev, entries); c < |after| && after[..c + 1] == log[..c + 1]
  {
    hide Merge, ChangedAt, FirstDisagreement;
    RestDiffers(log, prev + 1, entries, k);
    MergedByIndex(mode, log, prev, entries, k);
    FrontStays(mode, log, prev + 1 + k, entries[k..], Merge(mode, log, prev, entries), c);
  }

  lemma MergeDiffers(mode: Mode, log: seq<Entry>, prev: int, entries: seq<Entry>, k: nat)
    requires -1 <= prev < |log| && FirstDisagreement(log, prev + 1, entries, k)
    requires k < |entries| && prev + 1 + k < |log|
    ensures var after, d := Merge(mode, log, prev, entries), prev + 1 + k;
            d < |after| && after[d].term != log[d].term
  {
    hide Merge, ChangedAt, FirstDisagreement;
    RestDiffers(log, prev + 1, entries, k);
    MergedByIndex(mode, log, prev, entries, k);
    AddedStands(mode, log, prev + 1 + k, entries[k..], Merge(mode, log, prev, entries));
  }

  lemma FollowsPushed(s: NodeState, t: NodeState, commit: int)
    requires PushedAll(s) && Follows(s, t, commit)
    requires s.commit < |t.log| && t.log[..s.commit + 1] == s.log[..s.commit + 1]
    ensures PushedAll(t)
  {
  }

  lemma FollowsBroken(s: NodeState, t: NodeState, commit: int, i: nat)
    requires PushedAll(s) && Follows(s, t, commit) && i <= s.commit && i < |t.log| && t.log[i].term != s.log[i].term
    ensures !PushedAll(t)
  {
    assert t.queue[i] == s.queue[i] == s.log[i];
    if t.commit < |t.log| { assert t.log[..t.commit + 1][i] == t.log[i]; }
  }

  lemma AgreeingPushes(mode: Mode, s: NodeState, req: AppendReq, k: nat)
    requires InBounds(mode, s, req) && Takes(s, req) && PushedAll(s)
    requires FirstDisagreement(s.log, req.prevIndex + 1, req.entries, k)
    requires k == |req.entries| || req.prevIndex + 1 + k > s.commit
    ensures PushedAll(AppendEntries(mode, s, req).0)
  {
    assert s.commit == s.applied < |s.log|;
    hide AppendEntries, Merge, FirstDisagreement, Follows, PushedAll, InBounds;
    FollowFields(mode, s, req);
    MergeKeeps(mode, s.log, req.prevIndex, req.entries, k, s.commit);
    FollowsPushed(s, AppendEntries(mode, s, req).0, req.commit);
  }

  lemma DisagreeingBreaks(mode: Mode, s: NodeState, req: AppendReq, k: nat)
    requires InBounds(mode, s, req) && Takes(s, req) && PushedAll(s)
    requires FirstDisagreement(s.log, req.prevIndex + 1, req.entries, k)
    requires k < |req.entries| && req.prevIndex + 1 + k <= s.commit
    ensures !PushedAll(AppendEntries(mode, s, req).0)
  {
    assert s.commit == s.applied < |s.log|;
    hide AppendEntries, Merge, FirstDisagreement, Follows, PushedAll, InBounds;
    FollowFields(mode, s, req);
    MergeDiffers(mode, s.log, req.prevIndex, req.entries, k);
    FollowsBroken(s, AppendEntries(mode, s, req).0, req.commit, req.prevIndex + 1 + k);
  }

  lemma HasFirst(log: seq<Entry>, at: nat, entries: seq<Entry>)
    requires at <= |log|
    ensures exists k: nat :: FirstDisagreement(log, at, entries, k)
  {
    ScanIsFirst(log, at, entries, Agreeing(log, at, entries));
  }

  lemma QueueFrom(mode: Mode, s: NodeState, req: AppendReq, k: nat)
    requires InBounds(mode, s, req) && Takes(s, req) && PushedAll(s)
    requires FirstDisagreement(s.log, req.prevIndex + 1, req.entries, k)
    ensures PushedAll(AppendEntries(mode, s, req).0) <==> k == |req.entries| || req.prevIndex + 1 + k > s.commit
  {
    hide AppendEntries, InBounds, PushedAll, Merge, Takes;
    if k == |req.entries| || req.prevIndex + 1 + k > s.commit {
      AgreeingPushes(mode, s, req, k);
    } else {
      DisagreeingBreaks(mode, s, req, k);
    }
  }

  /** After that the queue is the log through the commit index if and only if the message did not
      contradict a committed entry. */
  lemma QueueIsLogIff(mode: Mode, s: NodeState, req: AppendReq)
    requires InBounds(mode, s, req) && FollowsCheck(s, req) && PushedAll(s)
    ensures PushedAll(AppendEntries(mode, s, req).0) <==> AgreesBelowCommit(s, req)
  {
    hide AppendEntries, AgreesBelowCommit, FirstDisagreement, InBounds, Merge;
    HasFirst(s.log, req.prevIndex + 1, req.entries);
    var k: nat :| FirstDisagreement(s.log, req.prevIndex + 1, req.entries, k);
    AgreesIff(s, req, k);
    QueueFrom(mode, s, req, k);
  }

  // ----- answers at the leader -----

  /** Entry `i` is of the leader's term and on a strict majority of the cluster, by its match indices. */
  ghost predicate HeldByMajority(log: seq<Entry>, term: nat, matched: map<string, int>, peers: seq<string>, i: int)
    requires 0 <= i < |log|
  {
    log[i].term == term && 2 * (1 + |set p | p in peers && Get(matched, p) >= i|) > |peers| + 1
  }

  lemma CommittableIff(s: NodeState, peers: seq<string>, i: int)
    requires 0 <= i < |s.log| && Distinct(peers)
    ensures Committable(s, peers, i) <==> HeldByMajority(s.log, s.term, s.matched, peers, i)
  {
    MatchCountIsSetSize(peers, s.matched, i);
    assert MatchSet(peers, s.matched, i) == set p | p in peers && Get(s.matched, p) >= i;
  }

  lemma GreatestHeld(s: NodeState, peers: seq<string>, to: int)
    requires -1 <= s.commit < |s.log| && Distinct(peers) && to == AdvanceBelow(s, peers, |s.log|)
    ensures s.commit < to ==> HeldByMajority(s.log, s.term, s.matched, peers, to)
    ensures forall i | to < i < |s.log| :: !HeldByMajority(s.log, s.term, s.matched, peers, i)
  {
    AdvanceIsMajorityMaximum(s, peers, to);
    hide AdvanceBelow, Committable, HeldByMajority;
    if s.commit < to { CommittableIff(s, peers, to); }
    forall i | to < i < |s.log| ensures !HeldByMajority(s.log, s.term, s.matched, peers, i) {
      CommittableIff(s, peers, i);
    }
  }

  lemma AdvanceRecord(s: NodeState, peers: seq<string>)
    requires -1 <= s.commit == s.applied < |s.log|
    ensures var t := AdvanceCommit(s, peers);
            && t.commit == AdvanceBelow(s, peers, |s.log|) && s.commit <= t.commit < |s.log|
            && t == s.(commit := t.commit, applied := t.commit, queue := s.queue + s.log[s.commit + 1..t.commit + 1])
  {
    hide AdvanceBelow;
  }

  lemma AdvanceFields(s: NodeState, peers: seq<string>)
    requires -1 <= s.commit == s.applied < |s.log| && Distinct(peers)
    ensures var t := AdvanceCommit(s, peers);
            && s.commit <= t.commit < |s.log|
            && t == s.(commit := t.commit, applied := t.commit, queue := s.queue + s.log[s.commit + 1..t.commit + 1])
            && (s.commit < t.commit ==> HeldByMajority(s.log, s.term, s.matched, peers, t.commit))
            && forall i | t.commit < i < |s.log| :: !HeldByMajority(s.log, s.term, s.matched, peers, i)
  {
    hide AdvanceCommit, AdvanceBelow, HeldByMajority;
    AdvanceRecord(s, peers);
    GreatestHeld(s, peers, AdvanceCommit(s, peers).commit);
  }

  lemma SuccessAdvances(mode: Mode, s: NodeState, peers: seq<string>, peer: string, req: AppendReq)
    requires -1 <= s.commit && -1 <= s.applied && s.role == Leader && req.term == s.term
    ensures var n := (if mode == AsWritten then Get(s.next, peer) else req.prevIndex + 1) + |req.entries|;
            AppendReply(mode, s, peers, peer, req, AppendRep(s.term, true)) == AdvanceCommit(Matched(s, peer, n), peers)
  {
    hide AdvanceCommit;
  }

  /** A success counts at once: the leader commits the last entry of its term that a majority holds,
      nothing above it is left uncommitted that could be, and what it commits it pushes. */
  lemma SuccessCommits(mode: Mode, s: NodeState, peers: seq<string>, peer: string, req: AppendReq)
    requires -1 <= s.commit == s.applied < |s.log| && Distinct(peers)
    requires s.role == Leader && req.term == s.term
    ensures var t := AppendReply(mode, s, peers, peer, req, AppendRep(s.term, true));
            var n := (if mode == AsWritten then Get(s.next, peer) else req.prevIndex + 1) + |req.entries|;
            && t == s.(next := s.next[peer := n], matched := s.matched[peer := n - 1], commit := t.commit,
                       applied := t.commit, queue := s.queue + s.log[s.commit + 1..t.commit + 1])
            && s.commit <= t.commit < |s.log|
            && (s.commit < t.commit ==> HeldByMajority(s.log, s.term, t.matched, peers, t.commit))
            && forall i | t.commit < i < |s.log| :: !HeldByMajority(s.log, s.term, t.matched, peers, i)
  {
    var n := (if mode == AsWritten then Get(s.next, peer) else req.prevIndex + 1) + |req.entries|;
    SuccessAdvances(mode, s, peers, peer, req);
    hide AppendReply, AdvanceCommit, HeldByMajority;
    AdvanceFields(Matched(s, peer, n), peers);
  }

  lemma AppendReplyTeachesIff(mode: Mode, s: NodeState, peers: seq<string>, peer: string,
                              req: AppendReq, rep: AppendRep)
    requires rep.term >= req.term && -1 <= s.commit && -1 <= s.applied
    ensures AppendReply(mode, s, peers, peer, req, rep).term >= rep.term
       <==> s.term >= rep.term || (rep.term > req.term && (mode == AsWritten || req.term == s.term))
  {
    hide AdvanceBelow;
  }

  // ----- starting -----

  /** A start points every next index at the end of the log it finds and forgets every match index,
      the commit index and what was pushed; term, vote and log are those on disk. */
  ghost predicate StartsFrom(st: NodeState, disk: Disk, peers: seq<string>) {
    && (forall p :: p in st.next <==> p in peers) && (forall p :: p in st.matched <==> p in peers)
    && (forall p | p in peers :: st.next[p] == |st.log| && st.matched[p] == -1)
    && st.role == Follower && st.votes == 0 && st.commit == st.applied == -1 && st.queue == []
    && st.disk == disk && st.term == disk.term && st.vote == disk.vote && |st.log| == |disk.log|
  }

  lemma RestartStarts(mode: Mode, s: State, n: string)
    requires Enabled(mode, s, Restarts(n))
    ensures var t := Fire(mode, s, Restarts(n));
            && n in t.nodes && t == s.(nodes := s.nodes[n := t.nodes[n]])
            && StartsFrom(t.nodes[n], s.nodes[n].disk, s.peers[n])
            && (mode == Repaired ==> t.nodes[n].log == s.nodes[n].disk.log)
  {
    ReadBackLength(ZeroEntry, s.nodes[n].disk.log);
  }

  /** The first start, on empty files. */
  lemma FirstStart(mode: Mode, peers: seq<string>)
    ensures FromDisk(mode, Disk(0, "", []), peers) == InitialNode(peers)
    ensures StartsFrom(InitialNode(peers), Disk(0, "", []), peers) && InitialNode(peers).log == []
  {
  }
}
