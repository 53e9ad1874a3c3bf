/** What the proofs say about the code as written: a run in which every handler call meets its
    guard is, but for the vote on disk, a run of the repaired cluster. */
module Guarded {
  import opened RaftTypes
  import opened LogMerge
  import opened Commitment
  import opened Restore
  import opened Handlers
  import opened Departures
  import opened Cluster
  import opened Invariant
  import opened Votes
  import opened Growth
  import opened Induction
  import opened Safety

  /** The condition under which the handler as written does what the repaired one does. */
  ghost predicate Guard(s: State, ev: Event)
    requires Enabled(AsWritten, s, ev)
  {
    match ev
    case VoteArrives(id) =>
      var st, req := s.nodes[id.voter], s.calls[id].req;
      LastOfSomeLog(req) && FitsInt(st.log) && VoteGuard(st, req)
    case VoteReplyArrives(id) =>
      VoteReplyGuard(s.nodes[id.candidate], s.peers[id.candidate], s.calls[id].req, s.calls[id].reply.value)
    case AppendArrives(a) => AppendGuard(s.nodes[a.to], a.req)
    case AppendReplyArrives(k) =>
      AppendReplyGuard(s.nodes[k.req.leader], s.peers[k.req.leader], k.from, k.req, k.rep)
    case Restarts(n) => s.nodes[n].disk.vote == s.nodes[n].vote && NoFieldFallsBack(s.nodes[n].disk.log)
    case _ => true
  }

  function SyncState(s: State): (synced: State) {
    s.(nodes := map n | n in s.nodes :: Sync(s.nodes[n]))
  }

  function SyncRun(run: seq<State>): (r: seq<State>)
    ensures |r| == |run| && forall i | 0 <= i < |run| :: r[i] == SyncState(run[i])
  {
    seq(|run|, i requires 0 <= i < |run| => SyncState(run[i]))
  }

  ghost predicate TracksAll(s: State) {
    s.peers.Keys == s.nodes.Keys && forall n | n in s.nodes :: Tracks(s.nodes[n], s.peers[n])
  }

  /** Replies come from peers of the receiver. */
  ghost predicate OwnReplies(s: State) {
    forall k | k in s.acks && k.req.leader in s.nodes && k.req.leader in s.peers :: k.from in s.peers[k.req.leader]
  }

  lemma SyncPut(s: State, n: string, st: NodeState)
    requires n in s.nodes
    ensures SyncState(PutNode(s, n, st)) == PutNode(SyncState(s), n, Sync(st))
  {
    var a, b := SyncState(PutNode(s, n, st)), PutNode(SyncState(s), n, Sync(st));
    assert a.nodes == b.nodes;
  }

  lemma SameStand(s: State, n: string, timer: nat)
    requires Enabled(AsWritten, s, TimeoutFires(n, timer))
    ensures Enabled(Repaired, SyncState(s), TimeoutFires(n, timer))
            && Stands(SyncState(s), n) == SyncState(Stands(s, n))
  {
    SyncPut(s, n, Stand(s.nodes[n], n));
    var st := Stand(s.nodes[n], n);
    assert Stand(Sync(s.nodes[n]), n) == Sync(st);
    assert NewCalls(s.peers[n], n, Sync(st), s.candidacies) == NewCalls(s.peers[n], n, st, s.candidacies);
    assert SyncState(Stands(s, n)).nodes == SyncState(PutNode(s, n, st)).nodes;
  }

  lemma SameBeat(s: State, n: string)
    requires Enabled(AsWritten, s, HeartbeatFires(n))
    ensures Enabled(Repaired, SyncState(s), HeartbeatFires(n)) && Beats(SyncState(s), n) == SyncState(Beats(s, n))
  {
    assert SyncState(s).nodes[n] == Sync(s.nodes[n]);
    forall p | p in s.peers[n] ensures Heartbeat(Sync(s.nodes[n]), n, p) == Heartbeat(s.nodes[n], n, p) {}
    assert Beats(SyncState(s), n).appends == Beats(s, n).appends;
  }

  lemma SameVote(s: State, id: CallId)
    requires Enabled(AsWritten, s, VoteArrives(id)) && Guard(s, VoteArrives(id))
    ensures Enabled(Repaired, SyncState(s), VoteArrives(id))
    ensures Cluster.Votes(Repaired, SyncState(s), id) == SyncState(Cluster.Votes(AsWritten, s, id))
  {
    var st, req := s.nodes[id.voter], s.calls[id].req;
    RequestVoteExactIff(st, req);
    SyncPut(s, id.voter, RequestVote(AsWritten, st, req).0);
    assert SyncState(Cluster.Votes(AsWritten, s, id)).nodes
           == SyncState(PutNode(s, id.voter, RequestVote(AsWritten, st, req).0)).nodes;
  }

  lemma SameVoteReply(s: State, id: CallId)
    requires Enabled(AsWritten, s, VoteReplyArrives(id)) && Guard(s, VoteReplyArrives(id)) && TracksAll(s)
    ensures Enabled(Repaired, SyncState(s), VoteReplyArrives(id))
    ensures CountsVote(Repaired, SyncState(s), id) == SyncState(CountsVote(AsWritten, s, id))
  {
    var n := id.candidate;
    var call := s.calls[id];
    var st := VoteReply(AsWritten, s.nodes[n], s.peers[n], call.req, call.reply.value);
    VoteReplyExactIff(s.nodes[n], s.peers[n], call.req, call.reply.value);
    SyncPut(s, n, st);
    assert SyncState(s).nodes[n] == Sync(s.nodes[n]);
    var a, b := SyncState(CountsVote(AsWritten, s, id)), CountsVote(Repaired, SyncState(s), id);
    assert a.nodes == SyncState(PutNode(s, n, st)).nodes;
  }

  lemma SameAppend(s: State, a: Append)
    requires Enabled(AsWritten, s, AppendArrives(a)) && Guard(s, AppendArrives(a))
    ensures Enabled(Repaired, SyncState(s), AppendArrives(a))
    ensures Appends(Repaired, SyncState(s), a) == SyncState(Appends(AsWritten, s, a))
  {
    var st := s.nodes[a.to];
    if Takes(st, a.req) { InsertIsReplaceIffNoConflict(st.log, a.req.prevIndex, a.req.entries); }
    AppendEntriesExactIff(st, a.req);
    SyncPut(s, a.to, AppendEntries(AsWritten, st, a.req).0);
    assert SyncState(Appends(AsWritten, s, a)).nodes
           == SyncState(PutNode(s, a.to, AppendEntries(AsWritten, st, a.req).0)).nodes;
  }

  lemma SameAppendReply(s: State, k: Ack)
    requires Enabled(AsWritten, s, AppendReplyArrives(k)) && Guard(s, AppendReplyArrives(k))
    ensures Enabled(Repaired, SyncState(s), AppendReplyArrives(k))
    ensures Acknowledged(Repaired, SyncState(s), k) == SyncState(Acknowledged(AsWritten, s, k))
  {
    var n := k.req.leader;
    AppendReplyExactIff(s.nodes[n], s.peers[n], k.from, k.req, k.rep);
    SyncPut(s, n, AppendReply(AsWritten, s.nodes[n], s.peers[n], k.from, k.req, k.rep));
    assert SyncState(s).nodes[n] == Sync(s.nodes[n]);
  }

  lemma SameSubmit(s: State, n: string, c: Command)
    requires Enabled(AsWritten, s, ClientSubmits(n, c))
    ensures Enabled(Repaired, SyncState(s), ClientSubmits(n, c))
            && Submits(SyncState(s), n, c) == SyncState(Submits(s, n, c))
  {
    var e := Entry(s.nodes[n].term, c);
    SyncPut(s, n, Submit(s.nodes[n], e));
    assert Submit(Sync(s.nodes[n]), e) == Sync(Submit(s.nodes[n], e));
    assert SyncState(Submits(s, n, c)).nodes == SyncState(PutNode(s, n, Submit(s.nodes[n], e))).nodes;
  }

  lemma SameRestart(s: State, n: string)
    requires Enabled(AsWritten, s, Restarts(n)) && Guard(s, Restarts(n))
    ensures Enabled(Repaired, SyncState(s), Restarts(n))
    ensures Fire(Repaired, SyncState(s), Restarts(n)) == SyncState(Fire(AsWritten, s, Restarts(n)))
  {
    RestartExactIff(s.nodes[n], s.peers[n]);
    SyncPut(s, n, Restart(AsWritten, s.nodes[n], s.peers[n]));
  }

  /** One guarded step as written is one step of the repaired cluster. */
  lemma GuardedStep(s: State, ev: Event)
    requires Enabled(AsWritten, s, ev) && Guard(s, ev) && TracksAll(s) && OwnReplies(s)
    ensures Step(Repaired, SyncState(s), ev, SyncState(Fire(AsWritten, s, ev)))
  {
    match ev
    case TimeoutFires(n, timer) => SameStand(s, n, timer);
    case HeartbeatFires(n) => SameBeat(s, n);
    case VoteArrives(id) => SameVote(s, id);
    case VoteReplyArrives(id) => SameVoteReply(s, id);
    case AppendArrives(a) => SameAppend(s, a);
    case AppendReplyArrives(k) => SameAppendReply(s, k);
    case ClientSubmits(n, c) => SameSubmit(s, n, c);
    case Restarts(n) => SameRestart(s, n);
  }

  // ----- what the guards rely on holds along the way -----

  lemma InvOwnReplies(s: State)
    requires Inv(SyncState(s))
    ensures OwnReplies(s)
  {
    var t := SyncState(s);
    forall k | k in s.acks && k.req.leader in s.nodes && k.req.leader in s.peers
      ensures k.from in s.peers[k.req.leader]
    {
      assert AckOk(t, k);
      assert ReignOk(t, k.req.term);
      PeerIsOther(t, k.req.leader, k.from);
    }
  }

  lemma FollowTracks(st: NodeState, peers: seq<string>, log: seq<Entry>, commit: int)
    requires Tracks(st, peers) && -1 <= st.applied && (commit > st.commit ==> commit < |log|)
    ensures Tracks(FollowCommit(WithLog(st, log), commit), peers)
  {
  }

  lemma AppendTracks(st: NodeState, peers: seq<string>, req: AppendReq)
    requires InBounds(AsWritten, st, req) && Tracks(st, peers)
    ensures Tracks(AppendEntries(AsWritten, st, req).0, peers)
  {
    if Takes(st, req) { FollowTracks(Heard(st, req.term), peers, Taken(AsWritten, st, req), req.commit); }
  }

  lemma ReplyTracks(st: NodeState, peers: seq<string>, from: string, req: AppendReq, rep: AppendRep)
    requires -1 <= st.commit && -1 <= st.applied && Tracks(st, peers) && from in peers
    ensures Tracks(AppendReply(AsWritten, st, peers, from, req, rep), peers)
  {
    if rep.term <= req.term && st.role == Leader && rep.term == st.term {
      hide AdvanceCommit, Tracks, Matched;
    }
  }

  lemma VoteReplyTracks(st: NodeState, peers: seq<string>, req: VoteReq, rep: VoteRep)
    requires Tracks(st, peers)
    ensures Tracks(VoteReply(AsWritten, st, peers, req, rep), peers)
  {
  }

  /** The node an event runs on. */
  function Target(ev: Event): (node: string) {
    match ev
    case TimeoutFires(n, _) => n
    case HeartbeatFires(n) => n
    case VoteArrives(id) => id.voter
    case VoteReplyArrives(id) => id.candidate
    case AppendArrives(a) => a.to
    case AppendReplyArrives(k) => k.req.leader
    case ClientSubmits(n, _) => n
    case Restarts(n) => n
  }

  lemma MessageTracks(s: State, ev: Event)
    requires Enabled(AsWritten, s, ev) && TracksAll(s) && OwnReplies(s) && (ev.AppendArrives? || ev.AppendReplyArrives?)
    ensures var s', n := Fire(AsWritten, s, ev), Target(ev);
            n in s'.nodes && n in s.nodes && Tracks(s'.nodes[n], s.peers[n])
  {
    match ev
    case AppendArrives(a) => AppendTracks(s.nodes[a.to], s.peers[a.to], a.req);
    case AppendReplyArrives(k) => ReplyTracks(s.nodes[k.req.leader], s.peers[k.req.leader], k.from, k.req, k.rep);
  }

  lemma VoteTracks(s: State, ev: Event)
    requires Enabled(AsWritten, s, ev) && TracksAll(s) && (ev.VoteArrives? || ev.VoteReplyArrives?)
    ensures var s', n := Fire(AsWritten, s, ev), Target(ev);
            n in s'.nodes && n in s.nodes && Tracks(s'.nodes[n], s.peers[n])
  {
    if ev.VoteReplyArrives? {
      var id := ev.id;
      VoteReplyTracks(s.nodes[id.candidate], s.peers[id.candidate], s.calls[id].req, s.calls[id].reply.value);
    }
  }

  lemma LocalTracks(s: State, ev: Event)
    requires Enabled(AsWritten, s, ev) && TracksAll(s)
    requires ev.TimeoutFires? || ev.HeartbeatFires? || ev.ClientSubmits? || ev.Restarts?
    ensures var s', n := Fire(AsWritten, s, ev), Target(ev);
            n in s'.nodes && n in s.nodes && Tracks(s'.nodes[n], s.peers[n])
  {
  }

  lemma TargetTracks(s: State, ev: Event)
    requires Enabled(AsWritten, s, ev) && TracksAll(s) && OwnReplies(s)
    ensures var s', n := Fire(AsWritten, s, ev), Target(ev);
            n in s'.nodes && n in s.nodes && Tracks(s'.nodes[n], s.peers[n])
  {
    hide Tracks, Fire;
    if ev.AppendArrives? || ev.AppendReplyArrives? {
      MessageTracks(s, ev);
    } else if ev.VoteArrives? || ev.VoteReplyArrives? {
      VoteTracks(s, ev);
    } else {
      LocalTracks(s, ev);
    }
  }

  lemma VoteOthers(s: State, ev: Event)
    requires Enabled(AsWritten, s, ev) && (ev.VoteArrives? || ev.VoteReplyArrives?)
    ensures OneNode(s, Fire(AsWritten, s, ev), Target(ev))
  {
  }

  lemma MessageOthers(s: State, ev: Event)
    requires Enabled(AsWritten, s, ev) && (ev.AppendArrives? || ev.AppendReplyArrives?)
    ensures OneNode(s, Fire(AsWritten, s, ev), Target(ev))
  {
  }

  lemma LocalOthers(s: State, ev: Event)
    requires Enabled(AsWritten, s, ev)
    requires ev.TimeoutFires? || ev.HeartbeatFires? || ev.ClientSubmits? || ev.Restarts?
    ensures OneNode(s, Fire(AsWritten, s, ev), Target(ev))
  {
  }

  lemma OthersStay(s: State, ev: Event)
    requires Enabled(AsWritten, s, ev)
    ensures OneNode(s, Fire(AsWritten, s, ev), Target(ev))
  {
    hide Fire, OneNode;
    if ev.AppendArrives? || ev.AppendReplyArrives? {
      MessageOthers(s, ev);
    } else if ev.VoteArrives? || ev.VoteReplyArrives? {
      VoteOthers(s, ev);
    } else {
      LocalOthers(s, ev);
    }
  }

  lemma StepTracks(s: State, ev: Event)
    requires Enabled(AsWritten, s, ev) && TracksAll(s) && OwnReplies(s)
    ensures TracksAll(Fire(AsWritten, s, ev))
  {
    TargetTracks(s, ev);
    OthersStay(s, ev);
  }

  ghost predicate GuardedAt(run: seq<State>, events: seq<Event>, i: nat)
    requires i < |events| < |run|
  {
    StepAt(AsWritten, run, events, i) && Guard(run[i], events[i])
  }

  /** A run of the code as written in which every handler call meets its guard. */
  ghost predicate GuardedRun(run: seq<State>, events: seq<Event>) {
    && Run(AsWritten, run, events)
    && forall i: nat | i < |events| :: GuardedAt(run, events, i)
  }

  lemma InitSync(s: State)
    requires Init(s)
    ensures Init(SyncState(s)) && TracksAll(s)
  {
    var t := SyncState(s);
    assert t.nodes.Keys == s.nodes.Keys;
    forall n | n in s.nodes ensures t.nodes[n] == InitialNode(s.peers[n]) && Tracks(s.nodes[n], s.peers[n]) {}
  }

  lemma {:induction false} GuardedInv(run: seq<State>, events: seq<Event>, i: nat)
    requires GuardedRun(run, events) && i < |run|
    ensures Inv(SyncState(run[i])) && TracksAll(run[i])
  {
    if i == 0 {
      InitSync(run[0]);
      InitInv(SyncState(run[0]));
    } else {
      GuardedInv(run, events, i - 1);
      GuardedNext(run, events, i - 1);
    }
  }

  lemma GuardedNext(run: seq<State>, events: seq<Event>, i: nat)
    requires GuardedRun(run, events) && i < |events| && Inv(SyncState(run[i])) && TracksAll(run[i])
    ensures Inv(SyncState(run[i + 1])) && TracksAll(run[i + 1]) && StepAt(Repaired, SyncRun(run), events, i)
  {
    assert GuardedAt(run, events, i) && StepAt(AsWritten, run, events, i);
    InvOwnReplies(run[i]);
    StepTracks(run[i], events[i]);
    GuardedStep(run[i], events[i]);
    StepKeeps(SyncState(run[i]), events[i]);
  }

  /** The refinement. */
  lemma GuardedRunsAreRepaired(run: seq<State>, events: seq<Event>)
    requires GuardedRun(run, events)
    ensures Run(Repaired, SyncRun(run), events)
  {
    InitSync(run[0]);
    forall i: nat | i < |events| ensures StepAt(Repaired, SyncRun(run), events, i) {
      GuardedInv(run, events, i);
      GuardedNext(run, events, i);
    }
  }

  /** Election Safety and State Machine Safety of the code as written, on guarded runs. */
  lemma GuardedSafety(run: seq<State>, events: seq<Event>, i: nat, a: string, j: nat, b: string)
    requires GuardedRun(run, events) && i < |run| && j < |run| && a in run[i].nodes && b in run[j].nodes
    ensures LeadsAt(run[i], a, run[i].nodes[a].term) && LeadsAt(run[j], b, run[i].nodes[a].term) ==> a == b
    ensures run[i].nodes[a].queue <= run[j].nodes[b].queue || run[j].nodes[b].queue <= run[i].nodes[a].queue
  {
    var sync := SyncRun(run);
    GuardedRunsAreRepaired(run, events);
    StateMachineSafety(sync, events, i, a, j, b);
    if LeadsAt(run[i], a, run[i].nodes[a].term) && LeadsAt(run[j], b, run[i].nodes[a].term) {
      ElectionSafety(sync, events, i, a, j, b, run[i].nodes[a].term);
    }
  }
}
