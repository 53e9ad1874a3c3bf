/** How a leader brings a lagging or diverging peer up to date: heartbeat, answer, heartbeat,
    while the leader stays, no entry is submitted and the peer meets no later term. */
module Backtracking {
  import opened RaftTypes
  import opened LogMerge
  import opened Handlers
  import opened Cluster
  import opened Invariant
  import opened Replication
  import opened Induction
  import opened Safety
  import opened Rules

  /** A leader and a peer that has not moved past the leader's term. */
  ghost predicate CanRepair(s: NodeState, f: NodeState, p: string) {
    && s.role == Leader && f.term <= s.term
    && 0 <= Get(s.next, p) <= |s.log|
    && -1 <= s.commit < |s.log| && -1 <= s.applied
    && -1 <= f.applied
    && Matching(f.log, s.log)
  }

  lemma FrontOfMerge(mode: Mode, log: seq<Entry>, prev: int, entries: seq<Entry>, k: nat, lead: seq<Entry>)
    requires -1 <= prev < |log| && k == Agreeing(log, prev + 1, entries) < |entries|
    requires log[..prev + 1 + k] + entries[k..] == lead
    ensures lead <= Merge(mode, log, prev, entries)
  {
    if mode == AsWritten { assert Merge(mode, log, prev, entries) == lead + log[prev + 1 + k..]; }
  }

  /** An accepted message of the leader's whole tail leaves its whole log in front, D1 or not. */
  lemma HoldsTail(mode: Mode, log: seq<Entry>, lead: seq<Entry>, prev: int, entries: seq<Entry>)
    requires Matching(log, lead) && SliceOf(lead, prev, entries) && AcceptsAfter(log, lead, prev)
    requires prev + 1 + |entries| == |lead|
    ensures prev < |log| && lead <= Merge(mode, log, prev, entries)
  {
    hide Agreeing, Matching, AcceptsAfter;
    var k := Agreeing(log, prev + 1, entries);
    ScanOfSlice(log, lead, prev, entries, k);
    assert lead[..|lead|] == lead;
    if k < |entries| {
      ReplaceWithSlice(log, lead, prev, entries, k);
      FrontOfMerge(mode, log, prev, entries, k, lead);
    }
  }

  lemma TailAccepted(mode: Mode, s: NodeState, f: NodeState, self: string, p: string)
    requires CanRepair(s, f, p)
    ensures var req := Heartbeat(s, self, p);
            && (Takes(f, req) <==> AcceptsAfter(f.log, s.log, req.prevIndex))
            && (Takes(f, req) ==> s.log <= Taken(mode, f, req))
  {
    var req := Heartbeat(s, self, p);
    if Takes(f, req) { HoldsTail(mode, f.log, s.log, req.prevIndex, req.entries); }
  }

  lemma TailInBounds(mode: Mode, s: NodeState, f: NodeState, self: string, p: string)
    requires CanRepair(s, f, p)
    ensures InBounds(mode, f, Heartbeat(s, self, p))
  {
    TailAccepted(mode, s, f, self, p);
  }

  /** A heartbeat, the peer's answer, and the leader's reaction to it. */
  function Round(mode: Mode, s: NodeState, f: NodeState, self: string, peers: seq<string>,
                 p: string): (after: (NodeState, NodeState))
    requires CanRepair(s, f, p)
  {
    TailInBounds(mode, s, f, self, p);
    var req := Heartbeat(s, self, p);
    var (f', rep) := AppendEntries(mode, f, req);
    (AppendReply(mode, s, peers, p, req, rep), f')
  }

  /** The leader has seen the peer take its whole log. */
  ghost predicate UpToTheEnd(s: NodeState, f: NodeState, p: string) {
    s.log <= f.log && Get(s.next, p) == |s.log| && Get(s.matched, p) == |s.log| - 1
  }

  /** A refused round: one next index goes down by one, and nothing is written or committed. */
  ghost predicate StepsDown(s: NodeState, s': NodeState, f: NodeState, f': NodeState, p: string) {
    && s'.log == s.log && s'.commit == s.commit && Get(s'.next, p) == Get(s.next, p) - 1
    && f'.log == f.log && f'.commit == f.commit && f'.applied == f.applied && f'.queue == f.queue
  }

  lemma AppendTermLog(mode: Mode, f: NodeState, req: AppendReq)
    requires InBounds(mode, f, req) && f.term <= req.term
    ensures var (f', rep) := AppendEntries(mode, f, req);
            && f'.term == rep.term == req.term && rep.success == Takes(f, req)
            && if Takes(f, req)
               then f'.log == Taken(mode, f, req) && (f.commit == f.applied ==> Follows(f, f', req.commit))
               else f'.log == f.log && f'.commit == f.commit && f'.applied == f.applied && f'.queue == f.queue
  {
    FollowerAfter(mode, f, req);
    if Takes(f, req) { FollowFields(mode, f, req); }
    hide AppendEntries, Taken;
  }

  lemma ReplyIndices(mode: Mode, s: NodeState, peers: seq<string>, p: string, req: AppendReq, rep: AppendRep)
    requires s.role == Leader && req.term == rep.term == s.term && req.prevIndex == Get(s.next, p) - 1
    requires -1 <= s.commit < |s.log| && -1 <= s.applied
    ensures var s' := AppendReply(mode, s, peers, p, req, rep);
            && s'.role == Leader && s'.term == s.term && s'.log == s.log && -1 <= s'.commit < |s.log|
            && -1 <= s'.applied && (!rep.success ==> s'.commit == s.commit)
            && Get(s'.next, p) == (if rep.success then Get(s.next, p) + |req.entries| else Get(s.next, p) - 1)
            && (rep.success ==> Get(s'.matched, p) == Get(s.next, p) + |req.entries| - 1)
  {
  }

  /** One round either repairs the peer or takes the next index down by one, and succeeds
      exactly when the peer has the leader's entry just below the next index. */
  lemma RoundRepairsOrBacktracks(mode: Mode, s: NodeState, f: NodeState, self: string, peers: seq<string>, p: string)
    requires CanRepair(s, f, p)
    ensures var (s', f') := Round(mode, s, f, self, peers, p);
            && s'.log == s.log && s'.term == s.term && f'.term == s.term
            && if AcceptsAfter(f.log, s.log, Get(s.next, p) - 1)
               then UpToTheEnd(s', f', p) && (f.commit == f.applied ==> Follows(f, f', s.commit))
               else StepsDown(s, s', f, f', p) && CanRepair(s', f', p)
  {
    TailInBounds(mode, s, f, self, p);
    TailAccepted(mode, s, f, self, p);
    var req := Heartbeat(s, self, p);
    AppendTermLog(mode, f, req);
    ReplyIndices(mode, s, peers, p, req, AppendEntries(mode, f, req).1);
  }

  /** Rounds until the peer takes one, and how many there were. */
  function Repair(mode: Mode, s: NodeState, f: NodeState, self: string, peers: seq<string>,
                  p: string): (after: (NodeState, NodeState, nat))
    requires CanRepair(s, f, p)
    decreases Get(s.next, p)
  {
    RoundRepairsOrBacktracks(mode, s, f, self, peers, p);
    TailAccepted(mode, s, f, self, p);
    var (s', f') := Round(mode, s, f, self, peers, p);
    if Takes(f, Heartbeat(s, self, p)) then (s', f', 1)
    else
      var (s'', f'', rounds) := Repair(mode, s', f', self, peers, p);
      (s'', f'', rounds + 1)
  }

  /** `rounds` rounds took the next index down to the first index at which the two logs agree,
      and then the peer took the leader's whole log and committed as far as the leader had. */
  ghost predicate RepairedIn(s: NodeState, f: NodeState, s': NodeState, f': NodeState, rounds: nat, p: string)
    requires CanRepair(s, f, p)
  {
    && 1 <= rounds <= Get(s.next, p) + 1
    && AcceptsAfter(f.log, s.log, Get(s.next, p) - rounds)
    && (forall i | Get(s.next, p) - rounds < i < Get(s.next, p) :: !AcceptsAfter(f.log, s.log, i))
    && s'.log == s.log && s'.term == f'.term == s.term && UpToTheEnd(s', f', p)
    && (f.commit == f.applied ==> Follows(f, f', s.commit))
  }

  lemma OneMoreRound(s: NodeState, f: NodeState, s1: NodeState, f1: NodeState, s': NodeState, f': NodeState,
                     rounds: nat, p: string)
    requires CanRepair(s, f, p) && !AcceptsAfter(f.log, s.log, Get(s.next, p) - 1)
    requires CanRepair(s1, f1, p) && s1.term == s.term && StepsDown(s, s1, f, f1, p)
    requires RepairedIn(s1, f1, s', f', rounds, p)
    ensures RepairedIn(s, f, s', f', rounds + 1, p)
  {
  }

  /** Backtracking ends after at most next + 1 rounds and leaves the leader's whole log in front
      of the peer's, with the peer's commit index at least where the leader's was. */
  lemma {:induction false} BacktrackingRepairs(mode: Mode, s: NodeState, f: NodeState, self: string,
                                               peers: seq<string>, p: string)
    requires CanRepair(s, f, p)
    ensures var (s', f', rounds) := Repair(mode, s, f, self, peers, p);
            RepairedIn(s, f, s', f', rounds, p)
    decreases Get(s.next, p)
  {
    hide AppendEntries, AppendReply;
    RoundRepairsOrBacktracks(mode, s, f, self, peers, p);
    TailAccepted(mode, s, f, self, p);
    var (s1, f1) := Round(mode, s, f, self, peers, p);
    if !Takes(f, Heartbeat(s, self, p)) {
      var (s', f', rounds) := Repair(mode, s1, f1, self, peers, p);
      BacktrackingRepairs(mode, s1, f1, self, peers, p);
      OneMoreRound(s, f, s1, f1, s', f', rounds, p);
    }
  }

  lemma NodesMatch(s: State, n: string, p: string)
    requires ConfigOk(s) && NodesOk(s) && BackedOk(s) && n in s.nodes && p in s.nodes
    requires s.nodes[n].role == Leader && p in s.peers[n] && s.nodes[p].term <= s.nodes[n].term
    ensures CanRepair(s.nodes[n], s.nodes[p], p)
  {
    assert NodeOk(s.nodes[n], s.peers[n]) && NodeOk(s.nodes[p], s.peers[p]);
    BackedMatch(s.nodes[p].log, s.nodes[n].log, s.reigns);
  }

  /** Every leader of every run can repair every peer that has not seen a later term. */
  lemma LeadersCanRepair(run: seq<State>, events: seq<Event>, i: nat, n: string, p: string)
    requires Run(Repaired, run, events) && i < |run| && n in run[i].nodes && run[i].nodes[n].role == Leader
    requires n in run[i].peers && p in run[i].peers[n] && p in run[i].nodes
    requires run[i].nodes[p].term <= run[i].nodes[n].term
    ensures CanRepair(run[i].nodes[n], run[i].nodes[p], p)
  {
    RunInv(run, events, i);
    NodesMatch(run[i], n, p);
  }

  // ----- what the peer commits -----

  /** As far as both have committed, the peer's committed entries are the leader's. */
  ghost predicate CommitsAgree(s: NodeState, f: NodeState) {
    forall i | 0 <= i <= s.commit && i <= f.commit && i < |s.log| && i < |f.log| :: f.log[i] == s.log[i]
  }

  lemma CommitsArrive(s: NodeState, f: NodeState, f': NodeState)
    requires PushedAll(f) && -1 <= s.commit < |s.log| && s.log <= f'.log && Follows(f, f', s.commit)
    requires CommitsAgree(s, f)
    ensures s.log[..s.commit + 1] <= f'.queue
  {
    forall i | 0 <= i <= s.commit ensures i < |f'.queue| && f'.queue[i] == s.log[i] {
      if i <= f.commit { assert f'.queue[i] == f.queue[i] == f.log[i]; }
    }
  }

  lemma CommitsMissing(s: NodeState, f: NodeState, f': NodeState)
    requires PushedAll(f) && -1 <= s.commit < |s.log| && Follows(f, f', s.commit)
    requires s.log[..s.commit + 1] <= f'.queue
    ensures CommitsAgree(s, f)
  {
    forall i | 0 <= i <= s.commit && i <= f.commit ensures f.log[i] == s.log[i] {
      assert s.log[i] == s.log[..s.commit + 1][i] == f'.queue[i] == f.queue[i] == f.log[i];
    }
  }

  /** One successful round brings the peer's commit index to the leader's, and the leader's committed
      entries into the peer's queue if and only if the two had committed nothing different. */
  lemma RoundCommits(mode: Mode, s: NodeState, f: NodeState, self: string, peers: seq<string>, p: string)
    requires CanRepair(s, f, p) && AcceptsAfter(f.log, s.log, Get(s.next, p) - 1) && PushedAll(f)
    ensures var f' := Round(mode, s, f, self, peers, p).1;
            && f'.commit == Max(f.commit, s.commit)
            && (s.log[..s.commit + 1] <= f'.queue <==> CommitsAgree(s, f))
  {
    RoundRepairsOrBacktracks(mode, s, f, self, peers, p);
    var f' := Round(mode, s, f, self, peers, p).1;
    hide Round;
    if CommitsAgree(s, f) { CommitsArrive(s, f, f'); }
    if s.log[..s.commit + 1] <= f'.queue { CommitsMissing(s, f, f'); }
  }

  /** The same for all the rounds of a repair. */
  lemma RepairCommits(mode: Mode, s: NodeState, f: NodeState, self: string, peers: seq<string>, p: string)
    requires CanRepair(s, f, p) && PushedAll(f)
    ensures var f' := Repair(mode, s, f, self, peers, p).1;
            && f'.commit == Max(f.commit, s.commit)
            && (s.log[..s.commit + 1] <= f'.queue <==> CommitsAgree(s, f))
  {
    BacktrackingRepairs(mode, s, f, self, peers, p);
    var f' := Repair(mode, s, f, self, peers, p).1;
    hide Repair, CanRepair;
    if CommitsAgree(s, f) { CommitsArrive(s, f, f'); }
    if s.log[..s.commit + 1] <= f'.queue { CommitsMissing(s, f, f'); }
  }

  lemma RunCommitsAgree(run: seq<State>, events: seq<Event>, i: nat, n: string, p: string)
    requires Run(Repaired, run, events) && i < |run| && n in run[i].nodes && p in run[i].nodes
    ensures PushedAll(run[i].nodes[p]) && CommitsAgree(run[i].nodes[n], run[i].nodes[p])
  {
    RunDoneSafe(run, events, i, n);
    RunDoneSafe(run, events, i, p);
    var x, y := run[i].nodes[n], run[i].nodes[p];
    RunCompare(run, events, i, Done(x), x.term, Done(y), y.term);
    hide Run, Safe;
    forall j | 0 <= j <= x.commit && j <= y.commit ensures y.log[j] == x.log[j] {
      assert Done(x)[j] == x.log[j] && Done(y)[j] == y.log[j];
    }
  }

  /** So in every run a leader that repairs a peer without a later term leaves it with everything the
      leader had committed in its queue. */
  lemma RepairedPeerApplies(run: seq<State>, events: seq<Event>, i: nat, n: string, p: string)
    requires Run(Repaired, run, events) && i < |run| && n in run[i].nodes && run[i].nodes[n].role == Leader
    requires n in run[i].peers && p in run[i].peers[n] && p in run[i].nodes
    requires run[i].nodes[p].term <= run[i].nodes[n].term
    ensures CanRepair(run[i].nodes[n], run[i].nodes[p], p)
    ensures var s, f := run[i].nodes[n], run[i].nodes[p];
            s.log[..s.commit + 1] <= Repair(Repaired, s, f, n, run[i].peers[n], p).1.queue
  {
    LeadersCanRepair(run, events, i, n, p);
    RunCommitsAgree(run, events, i, n, p);
    hide Run, Repair;
    RepairCommits(Repaired, run[i].nodes[n], run[i].nodes[p], n, run[i].peers[n], p);
  }
}
