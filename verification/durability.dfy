/** What the files of a node hold while the code runs as written. */
module Durability {
  import opened RaftTypes
  import opened Restore
  import opened Handlers
  import opened Cluster

  /** Term and log on disk are those in memory; the vote on disk may be missing (D6) but is
      never a different one. */
  predicate OnDisk(s: NodeState) {
    s.disk.term == s.term && s.disk.log == s.log && (s.disk.vote == s.vote || s.disk.vote == "")
  }

  lemma HeardOnDisk(s: NodeState, term: nat)
    requires OnDisk(s)
    ensures OnDisk(Heard(s, term)) && Heard(s, term).applied == s.applied && Heard(s, term).commit == s.commit
  {
  }

  lemma FollowOnDisk(s: NodeState, log: seq<Entry>, commit: int)
    requires OnDisk(s) && -1 <= s.applied && (commit > s.commit ==> commit < |log|)
    ensures OnDisk(FollowCommit(WithLog(s, log), commit))
  {
  }

  lemma AppendOnDisk(s: NodeState, req: AppendReq)
    requires OnDisk(s) && InBounds(AsWritten, s, req)
    ensures OnDisk(AppendEntries(AsWritten, s, req).0)
  {
    HeardOnDisk(s, req.term);
    if Takes(s, req) { FollowOnDisk(Heard(s, req.term), Taken(AsWritten, s, req), req.commit); }
  }

  lemma ReplyOnDisk(s: NodeState, peers: seq<string>, from: string, req: AppendReq, rep: AppendRep)
    requires OnDisk(s) && -1 <= s.commit && -1 <= s.applied
    ensures OnDisk(AppendReply(AsWritten, s, peers, from, req, rep))
  {
  }

  /** A crash brings back the log exactly when no field of it falls back to its default (D9). */
  lemma RestartOnDisk(s: NodeState, peers: seq<string>)
    requires OnDisk(s)
    ensures OnDisk(Restart(AsWritten, s, peers)) <==> NoFieldFallsBack(s.log)
    ensures Restart(AsWritten, s, peers).term == s.term
    ensures Restart(AsWritten, s, peers).log == s.log <==> NoFieldFallsBack(s.log)
    ensures Restart(AsWritten, s, peers).vote == s.vote <==> s.disk.vote == s.vote
  {
    RestoreExactIff(s.log);
  }

  ghost predicate AllOnDisk(s: State) {
    s.peers.Keys == s.nodes.Keys && forall n | n in s.nodes :: OnDisk(s.nodes[n])
  }

  ghost predicate RestoresExactly(s: State, ev: Event)
    requires Enabled(AsWritten, s, ev)
  {
    ev.Restarts? ==> NoFieldFallsBack(s.nodes[ev.node].disk.log)
  }

  lemma AppendStepOnDisk(s: State, a: Append)
    requires Enabled(AsWritten, s, AppendArrives(a)) && AllOnDisk(s)
    ensures AllOnDisk(Appends(AsWritten, s, a))
  {
    AppendOnDisk(s.nodes[a.to], a.req);
    hide AppendEntries, OnDisk;
  }

  lemma ReplyStepOnDisk(s: State, k: Ack)
    requires Enabled(AsWritten, s, AppendReplyArrives(k)) && AllOnDisk(s)
    ensures AllOnDisk(Acknowledged(AsWritten, s, k))
  {
    ReplyOnDisk(s.nodes[k.req.leader], s.peers[k.req.leader], k.from, k.req, k.rep);
    hide AppendReply, OnDisk;
  }

  lemma MessageOnDisk(s: State, ev: Event)
    requires Enabled(AsWritten, s, ev) && AllOnDisk(s) && (ev.AppendArrives? || ev.AppendReplyArrives?)
    ensures AllOnDisk(Fire(AsWritten, s, ev))
  {
    hide AllOnDisk;
    if ev.AppendArrives? { AppendStepOnDisk(s, ev.msg); } else { ReplyStepOnDisk(s, ev.ack); }
  }

  lemma VoteOnDisk(s: NodeState, peers: seq<string>, req: VoteReq, rep: VoteRep)
    requires OnDisk(s)
    ensures OnDisk(RequestVote(AsWritten, s, req).0) && OnDisk(VoteReply(AsWritten, s, peers, req, rep))
  {
  }

  lemma VoteStepOnDisk(s: State, id: CallId)
    requires Enabled(AsWritten, s, VoteArrives(id)) && AllOnDisk(s)
    ensures AllOnDisk(Votes(AsWritten, s, id))
  {
    VoteOnDisk(s.nodes[id.voter], [], s.calls[id].req, VoteRep(0, false));
  }

  lemma CountOnDisk(s: State, id: CallId)
    requires Enabled(AsWritten, s, VoteReplyArrives(id)) && AllOnDisk(s)
    ensures AllOnDisk(CountsVote(AsWritten, s, id))
  {
    VoteOnDisk(s.nodes[id.candidate], s.peers[id.candidate], s.calls[id].req, s.calls[id].reply.value);
    hide VoteReply, OnDisk;
  }

  lemma SubmitOnDisk(s: State, n: string, c: Command)
    requires Enabled(AsWritten, s, ClientSubmits(n, c)) && AllOnDisk(s)
    ensures AllOnDisk(Submits(s, n, c))
  {
  }

  lemma ElectionOnDisk(s: State, ev: Event)
    requires Enabled(AsWritten, s, ev) && AllOnDisk(s) && (ev.VoteArrives? || ev.VoteReplyArrives?)
    ensures AllOnDisk(Fire(AsWritten, s, ev))
  {
    hide AllOnDisk;
    if ev.VoteArrives? { VoteStepOnDisk(s, ev.id); } else { CountOnDisk(s, ev.id); }
  }

  lemma LocalOnDisk(s: State, ev: Event)
    requires Enabled(AsWritten, s, ev) && AllOnDisk(s)
    requires ev.TimeoutFires? || ev.HeartbeatFires? || ev.ClientSubmits?
    ensures AllOnDisk(Fire(AsWritten, s, ev))
  {
    match ev
    case TimeoutFires(n, timer) =>
    case ClientSubmits(n, c) => SubmitOnDisk(s, n, c);
    case HeartbeatFires(n) =>
      assert Beats(s, n).nodes == s.nodes && Beats(s, n).peers == s.peers;
  }

  lemma RestartStepOnDisk(s: State, n: string)
    requires Enabled(AsWritten, s, Restarts(n)) && AllOnDisk(s)
    ensures AllOnDisk(Fire(AsWritten, s, Restarts(n))) <==> NoFieldFallsBack(s.nodes[n].disk.log)
  {
    RestartOnDisk(s.nodes[n], s.peers[n]);
  }

  /** A step loses nothing of term and log if and only if it is not a restart on a log that
      does not come back. */
  lemma StepOnDisk(s: State, ev: Event)
    requires Enabled(AsWritten, s, ev) && AllOnDisk(s)
    ensures AllOnDisk(Fire(AsWritten, s, ev)) <==> RestoresExactly(s, ev)
  {
    hide AllOnDisk, Fire;
    if ev.Restarts? {
      RestartStepOnDisk(s, ev.node);
    } else if ev.AppendArrives? || ev.AppendReplyArrives? {
      MessageOnDisk(s, ev);
    } else if ev.VoteArrives? || ev.VoteReplyArrives? {
      ElectionOnDisk(s, ev);
    } else {
      LocalOnDisk(s, ev);
    }
  }

  ghost predicate RestoresAt(run: seq<State>, events: seq<Event>, i: nat)
    requires i < |events| < |run|
  {
    StepAt(AsWritten, run, events, i) && RestoresExactly(run[i], events[i])
  }

  /** In every run of the code as written, whatever else goes wrong in it, every node's term and
      log are on its disk after every handler, as long as every log restored so far came back. */
  lemma {:induction false} RunOnDisk(run: seq<State>, events: seq<Event>, j: nat)
    requires Run(AsWritten, run, events) && j < |run|
    requires forall i: nat | i < j :: RestoresAt(run, events, i)
    ensures AllOnDisk(run[j])
  {
    if j > 0 {
      RunOnDisk(run, events, j - 1);
      assert RestoresAt(run, events, j - 1) && StepAt(AsWritten, run, events, j - 1);
      StepOnDisk(run[j - 1], events[j - 1]);
    }
  }
}
