/** Every handler of a node as a function of its state. `AsWritten` is what the source does,
    `Repaired` replaces the departures D1-D6 and D9 listed in README.md. */
module Handlers {
  import opened RaftTypes
  import opened LogMerge
  import opened Commitment
  import opened Restore

  function InitialNode(peers: seq<string>): (node: NodeState) {
    NodeState(0, Follower, "", 0, [], -1, -1, PointAll(peers, 0), PointAll(peers, -1), [], Disk(0, "", []))
  }

  /** The map from every peer to `value`. */
  function PointAll(peers: seq<string>, value: int): (m: map<string, int>)
    ensures forall p :: p in m <==> p in peers
    ensures forall p | p in m :: m[p] == value
  {
    if peers == [] then map[]
    else
      var last := |peers| - 1;
      assert peers == peers[..last] + [peers[last]];
      PointAll(peers[..last], value)[peers[last] := value]
  }

  // ----- concensus_module.cpp -----

  function ResetToFollower(s: NodeState, term: nat): (after: NodeState) {
    s.(role := Follower, term := term, vote := "", votes := 0, disk := s.disk.(term := term, vote := ""))
  }

  /** The guards at the top of ElectionCallback; the timer remembers the term it was set in. */
  predicate MayStand(s: NodeState, timer: nat) {
    s.role != Leader && s.term == timer
  }

  function Stand(s: NodeState, self: string): (after: NodeState) {
    s.(role := Candidate, term := s.term + 1, vote := self, votes := 1,
       disk := s.disk.(term := s.term + 1, vote := self))
  }

  function VoteRequest(s: NodeState, self: string): (req: VoteReq) {
    VoteReq(s.term, self, |s.log| - 1, LastTerm(s.log))
  }

  /** The heartbeat reads entries()[next - 1]; past the end that is undefined behaviour. */
  predicate MayHeartbeat(s: NodeState, peers: seq<string>) {
    s.role == Leader && forall p | p in peers :: Get(s.next, p) <= |s.log|
  }

  function Heartbeat(s: NodeState, self: string, peer: string): (req: AppendReq)
    requires Get(s.next, peer) <= |s.log|
  {
    var next := Get(s.next, peer);
    AppendReq(s.term, self, next - 1, if next >= 1 then s.log[next - 1].term else -1,
              if next >= 0 then s.log[next..] else [], s.commit)
  }

  /** D4: the source leaves both indices as they are; the repair forgets old match indices
      and brings a next index back into the log. */
  function PromoteToLeader(mode: Mode, s: NodeState, peers: seq<string>): (after: NodeState) {
    var t := s.(role := Leader, votes := 0);
    if mode == AsWritten then t
    else t.(matched := PointAll(peers, -1), next := PointInside(peers, s.next, |s.log|))
  }

  function InLog(next: int, size: nat): (index: nat) {
    if 0 <= next <= size then next else size
  }

  /** The next index of every peer, brought back into a log of `size` entries. */
  function PointInside(peers: seq<string>, next: map<string, int>, size: nat): (m: map<string, int>)
    ensures forall p :: p in m <==> p in peers
    ensures forall p | p in m :: m[p] == InLog(Get(next, p), size)
  {
    if peers == [] then map[]
    else
      var last := |peers| - 1;
      assert peers == peers[..last] + [peers[last]];
      PointInside(peers[..last], next, size)[peers[last] := InLog(Get(next, peers[last]), size)]
  }

  function Submit(s: NodeState, e: Entry): (after: NodeState) {
    if s.role == Leader then s.(log := s.log + [e], disk := s.disk.(log := s.disk.log + [e])) else s
  }

  /** The constructor after a crash: state and log come from disk, the rest starts over. */
  function Restart(mode: Mode, s: NodeState, peers: seq<string>): (after: NodeState) {
    FromDisk(mode, s.disk, peers)
  }

  function FromDisk(mode: Mode, disk: Disk, peers: seq<string>): (node: NodeState) {
    var log := RestoredLog(mode, disk.log);
    NodeState(disk.term, Follower, disk.vote, 0, log, -1, -1,
              PointAll(peers, |log|), PointAll(peers, -1), [], disk)
  }

  /** The loops that push log entries to the commit queue until `applied` reaches `to`. */
  function ApplyThrough(s: NodeState, to: int): (after: NodeState)
    requires -1 <= s.applied && to < |s.log|
  {
    if s.applied < to then s.(applied := to, queue := s.queue + s.log[s.applied + 1..to + 1]) else s
  }

  // ----- raft_server.cpp -----

  function Entered(s: NodeState, term: nat): (after: NodeState) {
    if term > s.term then ResetToFollower(s, term) else s
  }

  /** D3: -1, the last term and index of an empty log, is the largest uint32. */
  predicate UpToDate(mode: Mode, req: VoteReq, log: seq<Entry>) {
    if mode == AsWritten then
      || U32(req.lastTerm) > U32(LastTerm(log))
      || (U32(req.lastTerm) == U32(LastTerm(log)) && U32(req.lastIndex) >= U32(|log| - 1))
    else
      || req.lastTerm > LastTerm(log)
      || (req.lastTerm == LastTerm(log) && req.lastIndex >= |log| - 1)
  }

  predicate Grants(mode: Mode, s: NodeState, req: VoteReq) {
    var t := Entered(s, req.term);
    req.term == t.term && (t.vote == "" || t.vote == req.candidate) && UpToDate(mode, req, s.log)
  }

  /** D6: the source does not write a granted vote to disk. */
  function RequestVote(mode: Mode, s: NodeState, req: VoteReq): (answer: (NodeState, VoteRep)) {
    var t := Entered(s, req.term);
    if Grants(mode, s, req) then
      (if mode == AsWritten then t.(vote := req.candidate)
       else t.(vote := req.candidate, disk := t.disk.(vote := req.candidate)),
       VoteRep(t.term, true))
    else (t, VoteRep(t.term, false))
  }

  /** An AppendEntries of the node's own term turns anyone but a follower into one,
      which clears the vote within the term (D7, as written). */
  function Heard(s: NodeState, term: nat): (after: NodeState) {
    var t := Entered(s, term);
    if term == t.term && t.role != Follower then ResetToFollower(t, term) else t
  }

  predicate Takes(s: NodeState, req: AppendReq) {
    req.term >= s.term && Accepts(s.log, req.prevIndex, req.prevTerm)
  }

  function Taken(mode: Mode, s: NodeState, req: AppendReq): (log: seq<Entry>)
    requires Takes(s, req)
  {
    Merge(mode, s.log, req.prevIndex, req.entries)
  }

  /** The clamp of the commit index is the size of the log, so a larger leader commit makes
      the apply loop read one past the end: undefined behaviour (D8, as written). */
  predicate InBounds(mode: Mode, s: NodeState, req: AppendReq) {
    -1 <= s.applied && (Takes(s, req) && req.commit > s.commit ==> req.commit < |Taken(mode, s, req)|)
  }

  function WithLog(s: NodeState, log: seq<Entry>): (after: NodeState) {
    if log == s.log then s else s.(log := log, disk := s.disk.(log := log))
  }

  function Min(a: int, b: int): (least: int) { if a <= b then a else b }

  function FollowCommit(s: NodeState, leaderCommit: int): (after: NodeState)
    requires -1 <= s.applied && (leaderCommit > s.commit ==> leaderCommit < |s.log|)
  {
    if leaderCommit > s.commit then
      var to := Min(leaderCommit, |s.log|);
      ApplyThrough(s.(commit := to), to)
    else s
  }

  function AppendEntries(mode: Mode, s: NodeState, req: AppendReq): (answer: (NodeState, AppendRep))
    requires InBounds(mode, s, req)
  {
    var t := Heard(s, req.term);
    if Takes(s, req) then
      (FollowCommit(WithLog(t, Taken(mode, s, req)), req.commit), AppendRep(t.term, true))
    else (t, AppendRep(t.term, false))
  }

  // ----- client_callback_queue.cpp -----

  /** D2: the source compares a reply with the request it answers, never with the node's term. */
  function VoteReply(mode: Mode, s: NodeState, peers: seq<string>, req: VoteReq, rep: VoteRep): (after: NodeState) {
    if s.role != Candidate || (mode == Repaired && req.term != s.term) then s
    else if rep.term > req.term then ResetToFollower(s, rep.term)
    else if rep.term == req.term && rep.granted then
      var t := s.(votes := s.votes + 1);
      if t.votes * 2 > |peers| + 1 then PromoteToLeader(mode, t, peers) else t
    else s
  }

  function AdvanceCommit(s: NodeState, peers: seq<string>): (after: NodeState)
    requires -1 <= s.commit && -1 <= s.applied
  {
    var to := AdvanceBelow(s, peers, |s.log|);
    if to != s.commit then ApplyThrough(s.(commit := to), to) else s
  }

  /** The leader with both indices of `peer` set, the next index to `n`. */
  function Matched(s: NodeState, peer: string, n: int): (after: NodeState) {
    s.(next := s.next[peer := n], matched := s.matched[peer := n - 1])
  }

  /** D5: the source adds to the next index at the time of the reply; the repair starts from
      the index the request was built with. */
  function AppendReply(mode: Mode, s: NodeState, peers: seq<string>, peer: string,
                       req: AppendReq, rep: AppendRep): (after: NodeState)
    requires -1 <= s.commit && -1 <= s.applied
  {
    if mode == Repaired && req.term != s.term then s
    else if rep.term > req.term then ResetToFollower(s, rep.term)
    else if s.role == Leader && rep.term == s.term then
      var next := if mode == AsWritten then Get(s.next, peer) else req.prevIndex + 1;
      if rep.success then
        AdvanceCommit(Matched(s, peer, next + |req.entries|), peers)
      else s.(next := s.next[peer := next - 1])
    else s
  }
}
