/** What every reachable state of the repaired cluster satisfies. */
module Invariant {
  import opened RaftTypes
  import opened LogMerge
  import opened Commitment
  import opened Handlers
  import opened Cluster

  // ----- each node on its own -----

  ghost predicate Sorted(log: seq<Entry>) {
    forall i, j | 0 <= i <= j < |log| :: log[i].term <= log[j].term
  }

  ghost predicate TermsWithin(log: seq<Entry>, term: nat) {
    forall i | 0 <= i < |log| :: 1 <= log[i].term <= term
  }

  ghost predicate PointersOk(st: NodeState, peers: seq<string>) {
    forall p | p in peers :: 0 <= Get(st.next, p) <= |st.log| && -1 <= Get(st.matched, p) < |st.log|
  }

  /** The commit index is inside the log, everything committed has been pushed to the queue
      once and in order, and the disk holds what the memory holds. */
  ghost predicate NodeOk(st: NodeState, peers: seq<string>) {
    && Sorted(st.log) && TermsWithin(st.log, st.term)
    && -1 <= st.commit == st.applied < |st.log|
    && st.queue == st.log[..st.commit + 1]
    && st.disk == Disk(st.term, st.vote, st.log)
    && (st.role == Leader ==> PointersOk(st, peers))
  }

  ghost predicate NodesOk(s: State)
    requires ConfigOk(s)
  {
    forall n | n in s.nodes :: NodeOk(s.nodes[n], s.peers[n])
  }

  // ----- votes -----

  /** `p` has voted for `c` in the term. */
  ghost predicate Backs(s: State, p: string, c: string, term: nat) {
    && (c, term) in s.stood
    && (p != c ==> var id := CallId(c, term, p, s.stood[(c, term)]); id in s.calls && Granted(s.calls[id]))
  }

  ghost predicate StoodOk(s: State) {
    forall n, t: nat | (n, t) in s.stood :: n in s.nodes && 1 <= t <= s.nodes[n].term
  }

  ghost predicate CallOk(s: State, id: CallId)
    requires id in s.calls
  {
    var call := s.calls[id];
    && id.candidate != id.voter && id.candidate in s.nodes && id.voter in s.nodes
    && (id.candidate, id.term) in s.stood && s.stood[(id.candidate, id.term)] == id.candidacy
    && call.req.term == id.term && call.req.candidate == id.candidate
    && (call.delivered ==> call.reply.Some?)
    && (s.nodes[id.candidate].role == Candidate && s.nodes[id.candidate].term == id.term ==>
          call.req == VoteRequest(s.nodes[id.candidate], id.candidate))
    && (Granted(call) ==>
          && call.reply.value.term == id.term <= s.nodes[id.voter].term
          && Sorted(call.voterLog) && UpToDate(Repaired, call.req, call.voterLog))
  }

  ghost predicate CallsOk(s: State) {
    forall id | id in s.calls :: CallOk(s, id)
  }

  /** A candidate has voted for itself and counted exactly the grants delivered to it. */
  ghost predicate CandidateOk(s: State, n: string)
    requires n in s.nodes
  {
    && s.nodes[n].vote == n && (n, s.nodes[n].term) in s.stood
    && s.nodes[n].votes == |Tally(s.calls, n, s.nodes[n].term)|
  }

  ghost predicate CandidatesOk(s: State) {
    forall n | n in s.nodes && s.nodes[n].role == Candidate :: CandidateOk(s, n)
  }

  /** Before the term has a leader a vote in it is final. */
  ghost predicate OpenBallotsOk(s: State) {
    && (forall p, c, t: nat | Backs(s, p, c, t) && t !in s.reigns && p in s.nodes && s.nodes[p].term == t ::
          s.nodes[p].vote == c)
    && (forall p, c, d, t: nat | Backs(s, p, c, t) && Backs(s, p, d, t) && t !in s.reigns :: c == d)
  }

  /** Once it has one, the votes of the quorum that elected it stay, whatever others do. */
  ghost predicate QuorumBallotOk(s: State, t: nat, q: string)
    requires t in s.reigns
  {
    var leader := s.reigns[t].leader;
    && q in s.nodes && t <= s.nodes[q].term && Backs(s, q, leader, t)
    && (forall c | Backs(s, q, c, t) :: c == leader)
    && (s.nodes[q].term == t ==>
          s.nodes[q].vote == leader && s.nodes[q].role != Candidate && (q != leader ==> s.nodes[q].role == Follower))
  }

  ghost predicate ClosedBallotsOk(s: State) {
    forall t, q | t in s.reigns && q in s.reigns[t].quorum :: QuorumBallotOk(s, t, q)
  }

  // ----- reigns and logs -----

  ghost predicate Majority(servers: set<string>, q: set<string>) {
    q <= servers && 2 * |q| > |servers|
  }

  ghost predicate ReignOk(s: State, t: nat)
    requires t in s.reigns
  {
    var r := s.reigns[t];
    && 1 <= t && r.leader in r.quorum && Majority(s.nodes.Keys, r.quorum) && r.leader in s.nodes
    && r.base <= r.log && Sorted(r.log) && TermsWithin(r.log, t)
    && (forall i | 0 <= i < |r.log| :: r.log[i].term < t <==> i < |r.base|)
    && t <= s.nodes[r.leader].term
    && (s.nodes[r.leader].term == t ==> s.nodes[r.leader].log == r.log)
  }

  ghost predicate ReignsOk(s: State) {
    && (forall t | t in s.reigns :: ReignOk(s, t))
    && (forall n | n in s.nodes && s.nodes[n].role == Leader ::
          s.nodes[n].term in s.reigns && s.reigns[s.nodes[n].term].leader == n)
  }

  /** Entry `i` and everything before it is what the leader of the entry's term has there. */
  ghost predicate BackedAt(log: seq<Entry>, reigns: map<nat, Reign>, i: nat)
    requires i < |log|
  {
    var t := log[i].term;
    t in reigns && i < |reigns[t].log| && log[..i + 1] == reigns[t].log[..i + 1]
  }

  ghost predicate Backed(log: seq<Entry>, reigns: map<nat, Reign>) {
    forall i: nat | i < |log| :: BackedAt(log, reigns, i)
  }

  ghost predicate BackedOk(s: State) {
    && (forall n | n in s.nodes :: Backed(s.nodes[n].log, s.reigns))
    && (forall t | t in s.reigns :: Backed(s.reigns[t].log, s.reigns))
  }

  // ----- messages -----

  function End(req: AppendReq): (index: int) { req.prevIndex + 1 + |req.entries| }

  ghost predicate AppendOk(s: State, a: Append) {
    && a.to in s.nodes && a.req.term in s.reigns
    && var r := s.reigns[a.req.term];
    && a.req.leader == r.leader != a.to
    && SliceOf(r.log, a.req.prevIndex, a.req.entries)
    && a.req.prevIndex < |r.log|
    && a.req.prevTerm == (if a.req.prevIndex >= 0 then r.log[a.req.prevIndex].term else -1)
    && -1 <= a.req.commit < End(a.req)
  }

  ghost predicate AppendsOk(s: State) {
    forall a | a in s.appends :: AppendOk(s, a)
  }

  ghost predicate AckOk(s: State, k: Ack) {
    && Append(k.from, k.req) in s.appends && AppendOk(s, Append(k.from, k.req))
    && k.req.term <= s.nodes[k.from].term
    && (k.rep.success ==> k.rep.term == k.req.term)
    && (k.rep.success && s.nodes[k.from].term == k.req.term ==>
          s.reigns[k.req.term].log[..End(k.req)] <= s.nodes[k.from].log)
    && (!k.rep.success && k.rep.term == k.req.term ==> k.req.prevIndex >= 0)
    && k.rep.term >= k.req.term
  }

  ghost predicate AcksOk(s: State) {
    forall k | k in s.acks :: AckOk(s, k)
  }

  ghost predicate AckCovers(k: Ack, q: string, t: nat, n: int) {
    k.from == q && k.rep.success && k.req.term == t && End(k.req) >= n
  }

  /** While in term `t`, `q` held the first `n` entries of that term's leader. */
  ghost predicate Acked(s: State, q: string, t: nat, n: int) {
    && t in s.reigns && n <= |s.reigns[t].log|
    && (q == s.reigns[t].leader || exists k | k in s.acks :: AckCovers(k, q, t, n))
  }

  ghost predicate MatchOk(s: State)
    requires ConfigOk(s)
  {
    forall n, p | n in s.nodes && s.nodes[n].role == Leader && p in s.peers[n] && Get(s.nodes[n].matched, p) >= 0 ::
      Acked(s, p, s.nodes[n].term, Get(s.nodes[n].matched, p) + 1)
  }

  // ----- leader completeness -----

  /** The leader of term `t` created entry `n` - 1 itself. */
  ghost predicate Point(s: State, t: nat, n: int) {
    t in s.reigns && 1 <= n <= |s.reigns[t].log| && s.reigns[t].log[n - 1].term == t
  }

  ghost function Upto(s: State, t: nat, n: int): (front: seq<Entry>)
    requires t in s.reigns && 0 <= n <= |s.reigns[t].log|
  {
    s.reigns[t].log[..n]
  }

  ghost predicate AllLater(s: State, t: nat, n: int)
    requires Point(s, t, n)
  {
    forall u | u in s.reigns && u > t :: Upto(s, t, n) <= s.reigns[u].base
  }

  /** What a node once held it still holds, unless some later leader started without it. */
  ghost predicate HeldOk(s: State) {
    forall q, t: nat, n | q in s.nodes && Point(s, t, n) && Acked(s, q, t, n) && AllLater(s, t, n) ::
      Upto(s, t, n) <= s.nodes[q].log
  }

  ghost predicate BallotLogsOk(s: State) {
    forall id, t: nat, n | id in s.calls && Granted(s.calls[id]) && t < id.term
                   && Point(s, t, n) && Acked(s, id.voter, t, n) && AllLater(s, t, n) ::
      Upto(s, t, n) <= s.calls[id].voterLog
  }

  ghost predicate BlockedBy(s: State, t: nat, n: int, r: set<string>) {
    Majority(s.nodes.Keys, r) && forall q | q in r :: s.nodes[q].term > t && !Acked(s, q, t, n)
  }

  /** A majority has moved past term `t` without having held the entries. */
  ghost predicate Blocked(s: State, t: nat, n: int) {
    exists r :: BlockedBy(s, t, n, r)
  }

  ghost predicate CompleteOk(s: State) {
    forall t: nat, n, u | Point(s, t, n) && u in s.reigns && t < u ::
      Upto(s, t, n) <= s.reigns[u].base || Blocked(s, t, n)
  }

  ghost predicate CommittedBy(s: State, t: nat, n: int, r: set<string>) {
    Point(s, t, n) && Majority(s.nodes.Keys, r) && forall q | q in r :: Acked(s, q, t, n)
  }

  /** A majority, the leader included, held the first `n` entries of term `t`'s leader in term
      `t`, and the last of them is of term `t`. */
  ghost predicate Committed(s: State, t: nat, n: int) {
    exists r :: CommittedBy(s, t, n, r)
  }

  ghost predicate Covers(s: State, t: nat, n: int, log: seq<Entry>) {
    Committed(s, t, n) && t in s.reigns && |log| <= n <= |s.reigns[t].log| && log == s.reigns[t].log[..|log|]
  }

  /** The entries are the beginning of something committed in a term up to `term`. */
  ghost predicate Safe(s: State, log: seq<Entry>, term: nat) {
    log == [] || exists t: nat, n | t <= term :: Covers(s, t, n, log)
  }

  ghost predicate CommitsOk(s: State) {
    && (forall n | n in s.nodes && -1 <= s.nodes[n].commit < |s.nodes[n].log| ::
          Safe(s, s.nodes[n].log[..s.nodes[n].commit + 1], s.nodes[n].term))
    && (forall a | a in s.appends && AppendOk(s, a) ::
          Safe(s, s.reigns[a.req.term].log[..a.req.commit + 1], a.req.term))
  }

  // ----- all of it -----

  ghost predicate BaseInv(s: State) {
    ConfigOk(s) && NodesOk(s) && ReignsOk(s) && BackedOk(s)
  }

  ghost predicate VoteInv(s: State) {
    StoodOk(s) && CallsOk(s) && CandidatesOk(s) && OpenBallotsOk(s) && ClosedBallotsOk(s)
  }

  ghost predicate LogInv(s: State)
    requires ConfigOk(s)
  {
    AppendsOk(s) && AcksOk(s) && MatchOk(s) && HeldOk(s) && BallotLogsOk(s) && CompleteOk(s) && CommitsOk(s)
  }

  ghost predicate Inv(s: State) {
    BaseInv(s) && VoteInv(s) && LogInv(s)
  }

  lemma InitInv(s: State)
    requires Init(s)
    ensures Inv(s)
  {
    hide Majority;
    forall n | n in s.nodes ensures NodeOk(s.nodes[n], s.peers[n]) {}
  }
}
