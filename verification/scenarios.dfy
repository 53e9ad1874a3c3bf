/** Runs of three nodes with the code as written: one that commits an entry and meets every guard,
    and two that lose a guarantee. */
module Scenarios {
  import opened RaftTypes
  import opened LogMerge
  import opened Commitment
  import opened Handlers
  import opened Cluster
  import opened Departures
  import opened Guarded
  import opened Safety

  ghost predicate Three(a: string, b: string, c: string) {
    a != "" && b != "" && c != "" && a != b && a != c && b != c
  }

  function Start(a: string, b: string, c: string): (s: State) {
    var peers := map[a := [b, c], b := [a, c], c := [a, b]];
    var nodes := map[a := InitialNode([b, c]), b := InitialNode([a, c]), c := InitialNode([a, b])];
    State(peers, nodes, map[], {}, {}, 0, map[], map[])
  }

  lemma PeersOfOne(n: string, x: string, y: string, servers: set<string>)
    requires n != x && n != y && x != y && servers == {n, x, y}
    ensures PeersOk(n, [x, y], servers)
  {
    assert forall p :: p in [x, y] <==> p == x || p == y;
  }

  lemma StartConfig(a: string, b: string, c: string)
    requires Three(a, b, c)
    ensures ConfigOk(Start(a, b, c)) && Start(a, b, c).nodes.Keys == {a, b, c}
  {
    hide PeersOk, InitialNode;
    var s := Start(a, b, c);
    var servers := {a, b, c};
    assert s.peers.Keys == servers;
    assert s.nodes.Keys == servers;
    PeersOfOne(a, b, c, servers);
    PeersOfOne(b, a, c, servers);
    PeersOfOne(c, a, b, servers);
    forall n | n in s.peers ensures PeersOk(n, s.peers[n], servers) {
      assert n == a || n == b || n == c;
    }
  }

  lemma StartIsInit(a: string, b: string, c: string)
    requires Three(a, b, c)
    ensures Init(Start(a, b, c)) && Cfg(Start(a, b, c), a, b, c)
  {
    hide ConfigOk, InitialNode;
    StartConfig(a, b, c);
  }

  ghost predicate Cfg(s: State, a: string, b: string, c: string) {
    && Three(a, b, c) && s.nodes.Keys == {a, b, c}
    && s.peers == map[a := [b, c], b := [a, c], c := [a, b]]
  }

  ghost predicate Ends(guarded: bool, run: seq<State>, events: seq<Event>, s: State) {
    Run(AsWritten, run, events) && run[|run| - 1] == s && (guarded ==> GuardedRun(run, events))
  }

  /** A run of the code as written ends in `s`; if `guarded`, a run every step of which meets its guard. */
  ghost predicate Reaches(guarded: bool, s: State) {
    exists run, events :: Ends(guarded, run, events, s)
  }

  lemma Longer(guarded: bool, s: State, ev: Event)
    requires Reaches(guarded, s) && Enabled(AsWritten, s, ev) && (guarded ==> Guard(s, ev))
    ensures Reaches(guarded, Fire(AsWritten, s, ev))
  {
    var run, events :| Ends(guarded, run, events, s);
    var r, e := run + [Fire(AsWritten, s, ev)], events + [ev];
    forall i: nat | i < |e| ensures StepAt(AsWritten, r, e, i) && (guarded ==> GuardedAt(r, e, i)) {
      if i < |events| { assert StepAt(AsWritten, run, events, i) && (guarded ==> GuardedAt(run, events, i)); }
    }
    assert Ends(guarded, r, e, Fire(AsWritten, s, ev));
  }

  ghost predicate Asked(s: State, id: CallId, lastIndex: int, lastTerm: int) {
    && id in s.calls && s.calls[id].req == VoteReq(id.term, id.candidate, lastIndex, lastTerm)
    && s.calls[id].reply == None && !s.calls[id].delivered
  }

  ghost predicate Promised(s: State, id: CallId) {
    && id in s.calls && s.calls[id].req.term == id.term
    && s.calls[id].reply == Some(VoteRep(id.term, true)) && !s.calls[id].delivered
  }

  /** `after` differs from `s` in node `n` alone, which is `st` there, apart from messages. */
  ghost predicate Becomes(s: State, after: State, n: string, st: NodeState) {
    && after.peers == s.peers && after.nodes.Keys == s.nodes.Keys && n in s.nodes && after.nodes[n] == st
    && forall m | m in s.nodes && m != n :: after.nodes[m] == s.nodes[m]
  }

  ghost predicate OtherCalls(s: State, after: State, id: CallId) {
    && after.candidacies == s.candidacies
    && forall o | o in s.calls && o != id :: o in after.calls && after.calls[o] == s.calls[o]
  }

  ghost predicate SameCalls(s: State, after: State) {
    after.calls == s.calls && after.candidacies == s.candidacies
  }

  // ----- steps -----

  ghost predicate Asks(s: State, after: State, n: string, x: string) {
    && n in s.nodes && Becomes(s, after, n, Stand(s.nodes[n], n)) && after.candidacies == s.candidacies + 1
    && Asked(after, CallId(n, s.nodes[n].term + 1, x, s.candidacies), |s.nodes[n].log| - 1, LastTerm(s.nodes[n].log))
    && forall id | id in s.calls && id.candidacy != s.candidacies ::
         id in after.calls && after.calls[id] == s.calls[id]
  }

  lemma TimesOut(guarded: bool, s: State, n: string, x: string)
    requires Reaches(guarded, s) && n in s.nodes && n in s.peers
    requires s.nodes[n].role != Leader && x in s.peers[n]
    ensures exists after :: Reaches(guarded, after) && Asks(s, after, n, x)
  {
    hide Reaches;
    var ev := TimeoutFires(n, s.nodes[n].term);
    Longer(guarded, s, ev);
    assert Asks(s, Fire(AsWritten, s, ev), n, x);
  }

  ghost predicate Promises(s: State, after: State, id: CallId) {
    && id.voter in s.nodes && Promised(after, id) && OtherCalls(s, after, id)
    && Becomes(s, after, id.voter, ResetToFollower(s.nodes[id.voter], id.term).(vote := id.candidate))
  }

  lemma Grant(guarded: bool, s: State, id: CallId, i: int, t: int)
    requires Reaches(guarded, s)
    requires Asked(s, id, i, t) && id.voter in s.nodes && id.term > s.nodes[id.voter].term
    requires UpToDate(AsWritten, VoteReq(id.term, id.candidate, i, t), s.nodes[id.voter].log)
    requires guarded ==> i == t == -1 && s.nodes[id.voter].log == []
    ensures exists after :: Reaches(guarded, after) && Promises(s, after, id)
  {
    hide Reaches;
    var after := Fire(AsWritten, s, VoteArrives(id));
    assert after.nodes.Keys == s.nodes.Keys;
    Longer(guarded, s, VoteArrives(id));
    assert Promises(s, after, id);
  }

  ghost predicate Elects(s: State, after: State, id: CallId) {
    && id.candidate in s.nodes && OtherCalls(s, after, id)
    && Becomes(s, after, id.candidate, s.nodes[id.candidate].(role := Leader, votes := 0))
  }

  lemma Elected(guarded: bool, s: State, id: CallId)
    requires Reaches(guarded, s)
    requires Promised(s, id) && id.candidate in s.nodes && id.candidate in s.peers && |s.peers[id.candidate]| == 2
    requires s.nodes[id.candidate].role == Candidate && s.nodes[id.candidate].votes == 1
    requires guarded ==>
               s.nodes[id.candidate].term == id.term && PromoteGuard(s.nodes[id.candidate], s.peers[id.candidate])
    ensures exists after :: Reaches(guarded, after) && Elects(s, after, id)
  {
    hide Reaches;
    var after := Fire(AsWritten, s, VoteReplyArrives(id));
    assert after.nodes.Keys == s.nodes.Keys;
    Longer(guarded, s, VoteReplyArrives(id));
    assert Elects(s, after, id);
  }

  ghost predicate Records(s: State, after: State, n: string, cmd: Command) {
    && n in s.nodes && Becomes(s, after, n, Submit(s.nodes[n], Entry(s.nodes[n].term, cmd)))
    && SameCalls(s, after) && after.appends == s.appends && after.acks == s.acks
  }

  lemma Submitted(guarded: bool, s: State, n: string, cmd: Command)
    requires Reaches(guarded, s) && n in s.nodes && s.nodes[n].role == Leader
    ensures exists after :: Reaches(guarded, after) && Records(s, after, n, cmd)
  {
    hide Reaches;
    var after := Fire(AsWritten, s, ClientSubmits(n, cmd));
    assert after.nodes.Keys == s.nodes.Keys;
    Longer(guarded, s, ClientSubmits(n, cmd));
    assert Records(s, after, n, cmd);
  }

  ghost predicate Sends(s: State, after: State, n: string, p: string) {
    && n in s.nodes && after.nodes == s.nodes && after.peers == s.peers
    && Get(s.nodes[n].next, p) <= |s.nodes[n].log| && Append(p, Heartbeat(s.nodes[n], n, p)) in after.appends
    && SameCalls(s, after) && after.acks == s.acks
  }

  lemma Beaten(guarded: bool, s: State, n: string, p: string)
    requires Reaches(guarded, s)
    requires n in s.nodes && n in s.peers && MayHeartbeat(s.nodes[n], s.peers[n]) && p in s.peers[n]
    ensures exists after :: Reaches(guarded, after) && Sends(s, after, n, p)
  {
    hide Reaches;
    Longer(guarded, s, HeartbeatFires(n));
    assert Sends(s, Fire(AsWritten, s, HeartbeatFires(n)), n, p);
  }

  ghost predicate Hears(s: State, after: State, p: string, req: AppendReq) {
    && p in s.nodes && InBounds(AsWritten, s.nodes[p], req)
    && Becomes(s, after, p, AppendEntries(AsWritten, s.nodes[p], req).0)
    && after.acks == s.acks + {Ack(p, req, AppendEntries(AsWritten, s.nodes[p], req).1)}
    && SameCalls(s, after) && after.appends == s.appends
  }

  lemma Delivered(guarded: bool, s: State, p: string, req: AppendReq)
    requires Reaches(guarded, s)
    requires Append(p, req) in s.appends && p in s.nodes && InBounds(AsWritten, s.nodes[p], req)
    requires guarded ==> AppendGuard(s.nodes[p], req)
    ensures exists after :: Reaches(guarded, after) && Hears(s, after, p, req)
  {
    hide Reaches;
    var after := Fire(AsWritten, s, AppendArrives(Append(p, req)));
    assert after.nodes.Keys == s.nodes.Keys;
    Longer(guarded, s, AppendArrives(Append(p, req)));
    assert Hears(s, after, p, req);
  }

  ghost predicate Answers(s: State, after: State, n: string, k: Ack) {
    && n in s.nodes && n in s.peers && -1 <= s.nodes[n].commit && -1 <= s.nodes[n].applied
    && Becomes(s, after, n, AppendReply(AsWritten, s.nodes[n], s.peers[n], k.from, k.req, k.rep))
    && SameCalls(s, after) && after.appends == s.appends && after.acks == s.acks
  }

  lemma Answered(guarded: bool, s: State, n: string, k: Ack)
    requires Reaches(guarded, s) && k in s.acks && k.req.leader == n && n in s.nodes && n in s.peers
    requires -1 <= s.nodes[n].commit && -1 <= s.nodes[n].applied
    requires guarded ==> AppendReplyGuard(s.nodes[n], s.peers[n], k.from, k.req, k.rep)
    ensures exists after :: Reaches(guarded, after) && Answers(s, after, n, k)
  {
    hide Reaches;
    var after := Fire(AsWritten, s, AppendReplyArrives(k));
    assert after.nodes.Keys == s.nodes.Keys;
    Longer(guarded, s, AppendReplyArrives(k));
    assert Answers(s, after, n, k);
  }

  // ----- single handler calls with two peers -----

  /** A leader whose newest entry is of its term and matched by a peer commits it. */
  lemma LastCommits(st: NodeState, b: string, c: string)
    requires -1 <= st.commit < |st.log| && -1 <= st.applied && |st.log| > 0
    requires st.log[|st.log| - 1].term == st.term
    requires Get(st.matched, b) >= |st.log| - 1 || Get(st.matched, c) >= |st.log| - 1
    ensures var r := AdvanceCommit(st, [b, c]);
            && r.commit == |st.log| - 1 && -1 <= r.applied
            && r == st.(commit := r.commit, applied := r.applied, queue := r.queue)
  {
    assert [b, c][1..] == [c] && [c][1..] == [];
    var last := |st.log| - 1;
    AdvanceBelowIsGreatest(st, [b, c], |st.log|);
    assert MatchCount([c], st.matched, last) == if Get(st.matched, c) >= last then 1 else 0;
    assert last > st.commit ==> Committable(st, [b, c], last);
  }

  // ----- a commit -----

  /** The three nodes and how many candidacies there have been. */
  ghost predicate Trio(s: State, a: string, b: string, c: string, x: NodeState, y: NodeState, z: NodeState, n: nat) {
    Cfg(s, a, b, c) && s.nodes[a] == x && s.nodes[b] == y && s.nodes[c] == z && s.candidacies == n
  }

  lemma InitReached(guarded: bool, s: State)
    requires Init(s)
    ensures Reaches(guarded, s)
  {
    hide Init, StepAt, GuardedAt;
    assert Run(AsWritten, [s], []);
    assert Ends(guarded, [s], [], s);
  }

  lemma StartReached(guarded: bool, a: string, b: string, c: string)
    requires Three(a, b, c)
    ensures Reaches(guarded, Start(a, b, c))
  {
    StartIsInit(a, b, c);
    hide Start, Init, Cfg;
    InitReached(guarded, Start(a, b, c));
  }

  lemma StartTrio(a: string, b: string, c: string)
    requires Three(a, b, c)
    ensures Trio(Start(a, b, c), a, b, c, InitialNode([b, c]), InitialNode([a, c]), InitialNode([a, b]), 0)
  {
  }

  function Voter(a: string, c: string): (st: NodeState) {
    ResetToFollower(InitialNode([a, c]), 1).(vote := a)
  }

  function FirstLeader(a: string, b: string, c: string): (st: NodeState) {
    Stand(InitialNode([b, c]), a).(role := Leader, votes := 0)
  }

  /** What the first leader is after its first entry. */
  function OneEntryLeader(a: string, b: string, c: string, cmd: Command): (st: NodeState) {
    var st := FirstLeader(a, b, c);
    st.(log := [Entry(1, cmd)], disk := st.disk.(log := [Entry(1, cmd)]))
  }

  ghost predicate FirstAsks(s: State, a: string, b: string, c: string) {
    && Asked(s, CallId(a, 1, b, 0), -1, -1)
    && Trio(s, a, b, c, Stand(InitialNode([b, c]), a), InitialNode([a, c]), InitialNode([a, b]), 1)
  }

  lemma StartAsks(s: State, after: State, a: string, b: string, c: string)
    requires Trio(s, a, b, c, InitialNode([b, c]), InitialNode([a, c]), InitialNode([a, b]), 0)
    requires Asks(s, after, a, b)
    ensures FirstAsks(after, a, b, c)
  {
  }

  lemma FirstCandidate(guarded: bool, a: string, b: string, c: string)
    requires Three(a, b, c)
    ensures exists s :: Reaches(guarded, s) && FirstAsks(s, a, b, c)
  {
    StartReached(guarded, a, b, c);
    StartTrio(a, b, c);
    hide Reaches, Start, Stand, FirstAsks;
    assert [b, c][0] in [b, c];
    TimesOut(guarded, Start(a, b, c), a, b);
    var s :| Reaches(guarded, s) && Asks(Start(a, b, c), s, a, b);
    StartAsks(Start(a, b, c), s, a, b, c);
  }

  ghost predicate Voted(s: State, a: string, b: string, c: string) {
    && Promised(s, CallId(a, 1, b, 0))
    && Trio(s, a, b, c, Stand(InitialNode([b, c]), a), Voter(a, c), InitialNode([a, b]), 1)
  }

  lemma VoteInFlight(guarded: bool, a: string, b: string, c: string)
    requires Three(a, b, c)
    ensures exists s :: Reaches(guarded, s) && Voted(s, a, b, c)
  {
    hide Reaches;
    FirstCandidate(guarded, a, b, c);
    var id := CallId(a, 1, b, 0);
    var s0 :| Reaches(guarded, s0) && FirstAsks(s0, a, b, c);
    Grant(guarded, s0, id, -1, -1);
    var s :| Reaches(guarded, s) && Promises(s0, s, id);
    assert Voted(s, a, b, c);
  }

  lemma FreshPromotes(b: string, c: string, a: string)
    ensures PromoteGuard(Stand(InitialNode([b, c]), a), [b, c])
    ensures forall p | p in [b, c] :: Get(InitialNode([b, c]).next, p) == 0 && Get(InitialNode([b, c]).matched, p) == -1
  {
  }

  lemma LeaderElected(guarded: bool, a: string, b: string, c: string)
    requires Three(a, b, c)
    ensures exists s :: Reaches(guarded, s)
              && Trio(s, a, b, c, FirstLeader(a, b, c), Voter(a, c), InitialNode([a, b]), 1)
  {
    hide Reaches;
    VoteInFlight(guarded, a, b, c);
    var s0 :| Reaches(guarded, s0) && Voted(s0, a, b, c);
    FreshPromotes(b, c, a);
    var id := CallId(a, 1, b, 0);
    Elected(guarded, s0, id);
    var s :| Reaches(guarded, s) && Elects(s0, s, id);
    assert Trio(s, a, b, c, FirstLeader(a, b, c), Voter(a, c), InitialNode([a, b]), 1);
  }

  ghost predicate HasEntry(s: State, a: string, b: string, c: string, cmd: Command) {
    Trio(s, a, b, c, OneEntryLeader(a, b, c, cmd), Voter(a, c), InitialNode([a, b]), 1)
  }

  lemma FirstEntry(guarded: bool, a: string, b: string, c: string, cmd: Command)
    requires Three(a, b, c)
    ensures exists s :: Reaches(guarded, s) && HasEntry(s, a, b, c, cmd)
  {
    hide Reaches;
    LeaderElected(guarded, a, b, c);
    var s0 :| Reaches(guarded, s0) && Trio(s0, a, b, c, FirstLeader(a, b, c), Voter(a, c), InitialNode([a, b]), 1);
    Submitted(guarded, s0, a, cmd);
    var s :| Reaches(guarded, s) && Records(s0, s, a, cmd);
    assert [] + [Entry(1, cmd)] == [Entry(1, cmd)];
    assert HasEntry(s, a, b, c, cmd);
  }

  function FirstMessage(a: string, cmd: Command): (req: AppendReq) {
    AppendReq(1, a, -1, -1, [Entry(1, cmd)], -1)
  }

  /** The leader's first entry and the heartbeat that carries it to `b`. */
  lemma FirstEntrySent(guarded: bool, a: string, b: string, c: string, cmd: Command)
    requires Three(a, b, c)
    ensures exists s :: Reaches(guarded, s) && HasEntry(s, a, b, c, cmd) && Append(b, FirstMessage(a, cmd)) in s.appends
  {
    hide Reaches, Voter;
    FirstEntry(guarded, a, b, c, cmd);
    var s0 :| Reaches(guarded, s0) && HasEntry(s0, a, b, c, cmd);
    assert [b, c][0] in [b, c];
    Beaten(guarded, s0, a, b);
    var s :| Reaches(guarded, s) && Sends(s0, s, a, b);
    assert HasEntry(s, a, b, c, cmd) && Append(b, FirstMessage(a, cmd)) in s.appends;
  }

  /** The follower `b` holds the entry, and its acknowledgement is in flight. */
  ghost predicate EntryHeld(s: State, a: string, b: string, c: string, cmd: Command) {
    && Cfg(s, a, b, c) && s.candidacies == 1 && s.nodes[a] == OneEntryLeader(a, b, c, cmd)
    && Ack(b, FirstMessage(a, cmd), AppendRep(1, true)) in s.acks && s.nodes[c] == InitialNode([a, b])
    && s.nodes[b].term == 1 && s.nodes[b].role == Follower && s.nodes[b].log == [Entry(1, cmd)]
    && s.nodes[b].commit == -1 && -1 <= s.nodes[b].applied
  }

  lemma FirstEntryAcked(guarded: bool, a: string, b: string, c: string, cmd: Command)
    requires Three(a, b, c)
    ensures exists s :: Reaches(guarded, s) && EntryHeld(s, a, b, c, cmd)
  {
    hide Reaches;
    FirstEntrySent(guarded, a, b, c, cmd);
    var req := FirstMessage(a, cmd);
    var s0 :| Reaches(guarded, s0) && HasEntry(s0, a, b, c, cmd) && Append(b, req) in s0.appends;
    Delivered(guarded, s0, b, req);
    var s :| Reaches(guarded, s) && Hears(s0, s, b, req);
    assert EntryHeld(s, a, b, c, cmd);
  }

  ghost predicate EntryCommits(s: State, a: string, b: string, c: string, cmd: Command) {
    && Cfg(s, a, b, c) && s.candidacies == 1 && s.nodes[c] == InitialNode([a, b])
    && s.nodes[a].commit == 0 && s.nodes[a].log == [Entry(1, cmd)]
    && s.nodes[b].term == 1 && s.nodes[b].log == [Entry(1, cmd)]
  }

  lemma ReplyCommits(s: State, after: State, a: string, b: string, c: string, cmd: Command)
    requires EntryHeld(s, a, b, c, cmd) && Answers(s, after, a, Ack(b, FirstMessage(a, cmd), AppendRep(1, true)))
    ensures EntryCommits(after, a, b, c, cmd)
  {
    FreshPromotes(b, c, a);
    assert [b, c][0] in [b, c];
    LastCommits(Matched(s.nodes[a], b, 1), b, c);
  }

  /** The code as written commits an entry in a run that meets every guard. */
  lemma EntryCommitted(a: string, b: string, c: string, cmd: Command)
    requires Three(a, b, c)
    ensures exists s :: Reaches(true, s) && EntryCommits(s, a, b, c, cmd)
  {
    hide Reaches, EntryCommits;
    FirstEntryAcked(true, a, b, c, cmd);
    var s0 :| Reaches(true, s0) && EntryHeld(s0, a, b, c, cmd);
    FreshPromotes(b, c, a);
    assert [b, c][0] in [b, c];
    var k := Ack(b, FirstMessage(a, cmd), AppendRep(1, true));
    Answered(true, s0, a, k);
    var s :| Reaches(true, s) && Answers(s0, s, a, k);
    ReplyCommits(s0, s, a, b, c, cmd);
  }

  /** So the repaired cluster can commit an entry, too. */
  lemma RepairedCommits(a: string, b: string, c: string, cmd: Command)
    requires Three(a, b, c)
    ensures exists run: seq<State>, events :: Run(Repaired, run, events) && a in run[|run| - 1].nodes
              && run[|run| - 1].nodes[a].commit == 0 && run[|run| - 1].nodes[a].log == [Entry(1, cmd)]
  {
    EntryCommitted(a, b, c, cmd);
    var s :| Reaches(true, s) && EntryCommits(s, a, b, c, cmd);
    var run, events :| Ends(true, run, events, s);
    GuardedRunsAreRepaired(run, events);
    assert Run(Repaired, SyncRun(run), events);
  }

  // ----- what goes wrong as written -----

  ghost predicate StaleLeader(s: State, a: string, b: string, c: string) {
    && Cfg(s, a, b, c) && LeadsAt(s, a, 2) && s.candidacies == 2
    && s.nodes[b].term == 1 && s.nodes[b].log == [] && s.nodes[c] == InitialNode([a, b])
  }

  lemma StaleVoteWins(s: State, s1: State, after: State, a: string, b: string, c: string)
    requires Voted(s, a, b, c) && Asks(s, s1, a, b) && Elects(s1, after, CallId(a, 1, b, 0))
    ensures StaleLeader(after, a, b, c)
  {
  }

  lemma ElectedByStaleVote(a: string, b: string, c: string)
    requires Three(a, b, c)
    ensures exists s :: Reaches(false, s) && StaleLeader(s, a, b, c)
  {
    hide Reaches, StaleLeader;
    VoteInFlight(false, a, b, c);
    var s0 :| Reaches(false, s0) && Voted(s0, a, b, c);
    assert [b, c][0] in [b, c];
    TimesOut(false, s0, a, b);
    var s1 :| Reaches(false, s1) && Asks(s0, s1, a, b);
    var id := CallId(a, 1, b, 0);
    Elected(false, s1, id);
    var s :| Reaches(false, s) && Elects(s1, s, id);
    StaleVoteWins(s0, s1, s, a, b, c);
  }

  ghost predicate EmptyLeader(s: State, after: State, a: string, b: string, c: string) {
    && Cfg(after, a, b, c) && LeadsAt(after, c, 2) && after.nodes[c].log == []
    && a in s.nodes && after.nodes[a] == s.nodes[a]
  }

  /** A fresh node that stands twice asks for votes in term 2. */
  ghost predicate AsksAgain(s: State, after: State, c: string, x: string) {
    && c in s.nodes && Asked(after, CallId(c, 2, x, s.candidacies + 1), -1, -1)
    && Becomes(s, after, c, Stand(Stand(s.nodes[c], c), c)) && after.candidacies == s.candidacies + 2
  }

  lemma BothAsk(s: State, s1: State, after: State, c: string, x: string)
    requires Asks(s, s1, c, x) && Asks(s1, after, c, x) && s.nodes[c].term == 0 && s.nodes[c].log == []
    ensures AsksAgain(s, after, c, x)
  {
  }

  lemma StandsTwice(s: State, c: string, x: string)
    requires Reaches(false, s) && c in s.nodes && c in s.peers && x in s.peers[c]
    requires s.nodes[c].role == Follower && s.nodes[c].term == 0 && s.nodes[c].log == []
    ensures exists after :: Reaches(false, after) && AsksAgain(s, after, c, x)
  {
    hide Reaches, AsksAgain;
    TimesOut(false, s, c, x);
    var s1 :| Reaches(false, s1) && Asks(s, s1, c, x);
    TimesOut(false, s1, c, x);
    var s2 :| Reaches(false, s2) && Asks(s1, s2, c, x);
    BothAsk(s, s1, s2, c, x);
  }

  lemma EmptyLogWins(s: State, s1: State, s2: State, after: State, a: string, b: string, c: string)
    requires Cfg(s, a, b, c) && s.nodes[c] == InitialNode([a, b]) && AsksAgain(s, s1, c, b)
    requires Promises(s1, s2, CallId(c, 2, b, s.candidacies + 1))
    requires Elects(s2, after, CallId(c, 2, b, s.candidacies + 1))
    ensures EmptyLeader(s, after, a, b, c)
  {
  }

  /** `c`, with an empty log, is elected in term 2 by `b`. */
  lemma EmptyLogElected(s: State, a: string, b: string, c: string)
    requires Reaches(false, s) && Cfg(s, a, b, c) && s.nodes[c] == InitialNode([a, b])
    requires s.nodes[b].term == 1 && UpToDate(AsWritten, VoteReq(2, c, -1, -1), s.nodes[b].log)
    ensures exists after :: Reaches(false, after) && EmptyLeader(s, after, a, b, c)
  {
    hide Reaches, EmptyLeader;
    assert [a, b][1] in [a, b];
    var id := CallId(c, 2, b, s.candidacies + 1);
    StandsTwice(s, c, b);
    var s1 :| Reaches(false, s1) && AsksAgain(s, s1, c, b);
    Grant(false, s1, id, -1, -1);
    var s2 :| Reaches(false, s2) && Promises(s1, s2, id);
    Elected(false, s2, id);
    var s3 :| Reaches(false, s3) && Elects(s2, s3, id);
    EmptyLogWins(s, s1, s2, s3, a, b, c);
  }

  /** D2: a vote of term 1 that arrives late makes node `a` a leader of term 2, while `c` is
      elected in term 2 by a genuine vote. */
  lemma TwoLeaders(a: string, b: string, c: string)
    requires Three(a, b, c)
    ensures exists s :: Reaches(false, s) && LeadsAt(s, a, 2) && LeadsAt(s, c, 2)
  {
    hide Reaches;
    ElectedByStaleVote(a, b, c);
    var s0 :| Reaches(false, s0) && StaleLeader(s0, a, b, c);
    EmptyLogElected(s0, a, b, c);
    var s :| Reaches(false, s) && EmptyLeader(s0, s, a, b, c);
    assert LeadsAt(s, a, 2) && LeadsAt(s, c, 2);
  }

  /** D3: `a` commits an entry with `b`'s help; then `c`, whose log is empty, is elected in a
      later term by `b`, because -1 is the largest uint32. */
  lemma CommittedEntryLost(a: string, b: string, c: string, cmd: Command)
    requires Three(a, b, c)
    ensures exists s :: Reaches(false, s) && a in s.nodes && s.nodes[a].commit == 0
              && s.nodes[a].log == [Entry(1, cmd)] && LeadsAt(s, c, 2) && s.nodes[c].log == []
  {
    EntryCommitted(a, b, c, cmd);
    var s0 :| Reaches(true, s0) && EntryCommits(s0, a, b, c, cmd);
    Unguarded(s0);
    hide Reaches;
    EmptyLogElected(s0, a, b, c);
    var s :| Reaches(false, s) && EmptyLeader(s0, s, a, b, c);
    assert s.nodes[a].commit == 0 && s.nodes[a].log == [Entry(1, cmd)];
  }

  lemma Unguarded(s: State)
    requires Reaches(true, s)
    ensures Reaches(false, s)
  {
    var run, events :| Ends(true, run, events, s);
    assert Ends(false, run, events, s);
  }
}
