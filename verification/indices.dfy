/** The match and next indices of the code as written, which a leader never resets (D4). */
module Indices {
  import opened RaftTypes
  import opened LogMerge
  import opened Commitment
  import opened Restore
  import opened Handlers
  import opened Departures
  import opened Cluster
  import opened Invariant

  /** Both indices of every peer stay within the log. */
  ghost predicate IndicesInside(st: NodeState, peers: seq<string>) {
    forall p | p in peers ::
      p in st.matched && Get(st.matched, p) < |st.log| && p in st.next && Get(st.next, p) <= |st.log|
  }

  ghost predicate NodeInside(st: NodeState, peers: seq<string>) {
    IndicesInside(st, peers) && |st.disk.log| == |st.log|
  }

  ghost predicate Inside(s: State) {
    && s.peers.Keys == s.nodes.Keys
    && (forall n | n in s.nodes :: NodeInside(s.nodes[n], s.peers[n]))
    && (forall a | a in s.appends :: a.req.leader in s.nodes && End(a.req) <= |s.nodes[a.req.leader].log|)
    && (forall k | k in s.acks :: k.req.leader in s.nodes && End(k.req) <= |s.nodes[k.req.leader].log|)
  }

  /** A success that the handler takes finds the next index where its request left it (D5). */
  ghost predicate NextUnmoved(s: State, ev: Event)
    requires Enabled(AsWritten, s, ev)
  {
    ev.AppendReplyArrives? ==>
      var k, st := ev.ack, s.nodes[ev.ack.req.leader];
      k.rep.success && k.rep.term <= k.req.term && st.role == Leader && k.rep.term == st.term ==>
        Get(st.next, k.from) == k.req.prevIndex + 1
  }

  lemma {:induction false} ReadBackLength(prior: Entry, es: seq<Entry>)
    ensures |ReadBack(prior, es)| == |es|
    decreases |es|
  {
    if es != [] { ReadBackLength(Overlay(prior, es[0]), es[1..]); }
  }

  lemma RestartInside(st: NodeState, peers: seq<string>)
    requires NodeInside(st, peers)
    ensures NodeInside(Restart(AsWritten, st, peers), peers) && |Restart(AsWritten, st, peers).log| == |st.log|
  {
    ReadBackLength(ZeroEntry, st.disk.log);
  }

  lemma FollowInside(st: NodeState, peers: seq<string>, log: seq<Entry>, commit: int)
    requires NodeInside(st, peers) && |st.log| <= |log| && -1 <= st.applied && (commit > st.commit ==> commit < |log|)
    ensures NodeInside(FollowCommit(WithLog(st, log), commit), peers)
    ensures FollowCommit(WithLog(st, log), commit).log == log
  {
  }

  lemma AppendInside(st: NodeState, peers: seq<string>, req: AppendReq)
    requires NodeInside(st, peers) && InBounds(AsWritten, st, req)
    ensures NodeInside(AppendEntries(AsWritten, st, req).0, peers)
    ensures |st.log| <= |AppendEntries(AsWritten, st, req).0.log|
  {
    if Takes(st, req) { FollowInside(Heard(st, req.term), peers, Taken(AsWritten, st, req), req.commit); }
  }

  lemma ReplyInside(st: NodeState, peers: seq<string>, from: string, req: AppendReq, rep: AppendRep)
    requires NodeInside(st, peers) && -1 <= st.commit && -1 <= st.applied && End(req) <= |st.log|
    requires rep.success && rep.term <= req.term && st.role == Leader && rep.term == st.term ==>
               Get(st.next, from) == req.prevIndex + 1
    ensures NodeInside(AppendReply(AsWritten, st, peers, from, req, rep), peers)
    ensures AppendReply(AsWritten, st, peers, from, req, rep).log == st.log
  {
    if rep.term <= req.term && st.role == Leader && rep.term == st.term && rep.success {
    }
  }

  // ----- steps -----

  /** One node changes and its log does not get shorter. */
  ghost predicate OneGrows(s: State, s': State, n: string) {
    && s'.peers == s.peers && n in s.nodes && n in s.peers && n in s'.nodes && s'.nodes == s.nodes[n := s'.nodes[n]]
    && NodeInside(s'.nodes[n], s.peers[n]) && |s.nodes[n].log| <= |s'.nodes[n].log|
  }

  lemma OneGrowsInside(s: State, s': State, n: string)
    requires Inside(s) && OneGrows(s, s', n) && s'.appends == s.appends
    requires forall k | k in s'.acks && k !in s.acks :: exists a :: a in s.appends && a.req == k.req
    ensures Inside(s')
  {
    assert s'.nodes.Keys == s.nodes.Keys;
    forall k | k in s'.acks ensures k.req.leader in s'.nodes && End(k.req) <= |s'.nodes[k.req.leader].log| {
      if k !in s.acks { var a :| a in s.appends && a.req == k.req; }
    }
  }

  lemma BeatsInside(s: State, n: string)
    requires Inside(s) && Enabled(AsWritten, s, HeartbeatFires(n))
    ensures Inside(Beats(s, n))
  {
    forall p | p in s.peers[n] ensures End(Heartbeat(s.nodes[n], n, p)) <= |s.nodes[n].log| {}
  }

  lemma AppendsInside(s: State, a: Append)
    requires Inside(s) && Enabled(AsWritten, s, AppendArrives(a))
    ensures Inside(Appends(AsWritten, s, a))
  {
    AppendInside(s.nodes[a.to], s.peers[a.to], a.req);
    OneGrowsInside(s, Appends(AsWritten, s, a), a.to);
  }

  lemma AcknowledgedInside(s: State, k: Ack)
    requires Inside(s) && Enabled(AsWritten, s, AppendReplyArrives(k)) && NextUnmoved(s, AppendReplyArrives(k))
    ensures Inside(Acknowledged(AsWritten, s, k))
  {
    var n := k.req.leader;
    ReplyInside(s.nodes[n], s.peers[n], k.from, k.req, k.rep);
    OneGrowsInside(s, Acknowledged(AsWritten, s, k), n);
  }

  lemma VoteInside(s: State, id: CallId)
    requires Inside(s) && Enabled(AsWritten, s, VoteArrives(id))
    ensures Inside(Votes(AsWritten, s, id))
  {
    OneGrowsInside(s, Votes(AsWritten, s, id), id.voter);
  }

  lemma VoteReplyNode(st: NodeState, peers: seq<string>, req: VoteReq, rep: VoteRep)
    requires NodeInside(st, peers)
    ensures NodeInside(VoteReply(AsWritten, st, peers, req, rep), peers)
    ensures VoteReply(AsWritten, st, peers, req, rep).log == st.log
  {
  }

  lemma VoteReplyGrows(s: State, id: CallId)
    requires Inside(s) && Enabled(AsWritten, s, VoteReplyArrives(id))
    ensures OneGrows(s, CountsVote(AsWritten, s, id), id.candidate)
    ensures CountsVote(AsWritten, s, id).appends == s.appends && CountsVote(AsWritten, s, id).acks == s.acks
  {
    VoteReplyNode(s.nodes[id.candidate], s.peers[id.candidate], s.calls[id].req, s.calls[id].reply.value);
    hide VoteReply, NodeInside;
  }

  lemma VoteReplyInside(s: State, id: CallId)
    requires Inside(s) && Enabled(AsWritten, s, VoteReplyArrives(id))
    ensures Inside(CountsVote(AsWritten, s, id))
  {
    VoteReplyGrows(s, id);
    hide Inside, OneGrows, CountsVote;
    OneGrowsInside(s, CountsVote(AsWritten, s, id), id.candidate);
  }

  lemma RestartsInside(s: State, n: string)
    requires Inside(s) && Enabled(AsWritten, s, Restarts(n))
    ensures Inside(Fire(AsWritten, s, Restarts(n)))
  {
    RestartInside(s.nodes[n], s.peers[n]);
    OneGrowsInside(s, Fire(AsWritten, s, Restarts(n)), n);
  }

  lemma StandInside(s: State, n: string, timer: nat)
    requires Inside(s) && Enabled(AsWritten, s, TimeoutFires(n, timer))
    ensures Inside(Stands(s, n))
  {
    OneGrowsInside(s, Stands(s, n), n);
  }

  lemma SubmitInside(s: State, n: string, c: Command)
    requires Inside(s) && Enabled(AsWritten, s, ClientSubmits(n, c))
    ensures Inside(Submits(s, n, c))
  {
    OneGrowsInside(s, Submits(s, n, c), n);
  }

  lemma StepInside(s: State, ev: Event)
    requires Inside(s) && Enabled(AsWritten, s, ev) && NextUnmoved(s, ev)
    ensures Inside(Fire(AsWritten, s, ev))
  {
    hide Inside;
    match ev
    case TimeoutFires(n, timer) => StandInside(s, n, timer);
    case HeartbeatFires(n) => BeatsInside(s, n);
    case AppendArrives(a) => AppendsInside(s, a);
    case AppendReplyArrives(k) => AcknowledgedInside(s, k);
    case VoteArrives(id) => VoteInside(s, id);
    case VoteReplyArrives(id) => VoteReplyInside(s, id);
    case ClientSubmits(n, c) => SubmitInside(s, n, c);
    case Restarts(n) => RestartsInside(s, n);
  }

  // ----- runs -----

  ghost predicate UnmovedAt(run: seq<State>, events: seq<Event>, i: nat)
    requires i < |events| < |run|
  {
    StepAt(AsWritten, run, events, i) && NextUnmoved(run[i], events[i])
  }

  lemma {:induction false} RunInside(run: seq<State>, events: seq<Event>, j: nat)
    requires Run(AsWritten, run, events) && j < |run|
    requires forall i: nat | i < j :: UnmovedAt(run, events, i)
    ensures Inside(run[j])
  {
    if j == 0 {
    } else {
      RunInside(run, events, j - 1);
      assert UnmovedAt(run, events, j - 1) && StepAt(AsWritten, run, events, j - 1);
      StepInside(run[j - 1], events[j - 1]);
    }
  }

  lemma InsideHarmless(st: NodeState, peers: seq<string>)
    requires IndicesInside(st, peers) && peers != []
    ensures !((1 + MatchCount(peers, st.matched, |st.log|)) * 2 > |peers| + 1)
    ensures forall p | p in peers :: Get(st.next, p) <= |st.log|
  {
    NoneMatch(peers, st.matched, |st.log|);
  }

  /** D4 needs D5: in a run of the code as written in which no success finds the next index moved,
      whatever else goes wrong in it, the indices a new leader keeps stay within its log, so
      they neither commit a new entry nor make a heartbeat read past the end. */
  lemma KeptIndicesHarmless(run: seq<State>, events: seq<Event>, j: nat, n: string, cmd: Command)
    requires Run(AsWritten, run, events) && j < |run| && n in run[j].nodes
    requires forall i: nat | i < j :: UnmovedAt(run, events, i)
    ensures n in run[j].peers && IndicesInside(run[j].nodes[n], run[j].peers[n])
    ensures var st, peers := run[j].nodes[n], run[j].peers[n];
            var kept := Submit(PromoteToLeader(AsWritten, st, peers), Entry(st.term, cmd));
            peers != [] && -1 <= st.commit < |st.log| && -1 <= st.applied
            && (forall i | st.commit < i < |st.log| :: st.log[i].term != st.term) ==>
              AdvanceCommit(kept, peers).commit != |st.log|
  {
    RunInside(run, events, j);
    var st, peers := run[j].nodes[n], run[j].peers[n];
    if peers != [] && -1 <= st.commit < |st.log| && -1 <= st.applied
       && (forall i | st.commit < i < |st.log| :: st.log[i].term != st.term)
    {
      InsideHarmless(st, peers);
      KeptMatchCommitsIff(st, peers, cmd);
    }
  }
}
