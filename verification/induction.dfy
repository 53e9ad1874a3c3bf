/** Every step of the repaired cluster keeps the invariant and only extends history. */
module Induction {
  import opened RaftTypes
  import opened LogMerge
  import opened Commitment
  import opened Handlers
  import opened Cluster
  import opened Invariant
  import opened Growth
  import opened Votes
  import opened Elections
  import opened Replication
  import opened Leadership

  lemma LocalKeeps(s: State, ev: Event)
    requires Inv(s) && Enabled(Repaired, s, ev) && (ev.TimeoutFires? || ev.Restarts?)
    ensures Inv(Fire(Repaired, s, ev))
  {
    hide Inv;
    if ev.TimeoutFires? { StandKeeps(s, ev.node); } else { RestartKeeps(s, ev.node); }
  }

  lemma LeaderKeeps(s: State, ev: Event)
    requires Inv(s) && Enabled(Repaired, s, ev) && (ev.HeartbeatFires? || ev.ClientSubmits?)
    ensures Inv(Fire(Repaired, s, ev))
  {
    hide Inv;
    if ev.HeartbeatFires? { BeatsKeeps(s, ev.node); } else { SubmitsKeeps(s, ev.node, ev.command); }
  }

  lemma VotingKeeps(s: State, ev: Event)
    requires Inv(s) && Enabled(Repaired, s, ev) && (ev.VoteArrives? || ev.VoteReplyArrives?)
    ensures Inv(Fire(Repaired, s, ev))
  {
    hide Inv;
    if ev.VoteArrives? { VoteArrivesKeeps(s, ev.id); } else { VoteReplyArrivesKeeps(s, ev.id); }
  }

  lemma AppendingKeeps(s: State, ev: Event)
    requires Inv(s) && Enabled(Repaired, s, ev) && (ev.AppendArrives? || ev.AppendReplyArrives?)
    ensures Inv(Fire(Repaired, s, ev))
  {
    hide Inv;
    if ev.AppendArrives? { AppendArrivesKeeps(s, ev.msg); } else { AppendReplyArrivesKeeps(s, ev.ack); }
  }

  /** The invariant is inductive: every event of the repaired cluster keeps it. */
  lemma StepKeeps(s: State, ev: Event)
    requires Inv(s) && Enabled(Repaired, s, ev)
    ensures Inv(Fire(Repaired, s, ev))
  {
    hide Inv;
    if ev.TimeoutFires? || ev.Restarts? {
      LocalKeeps(s, ev);
    } else if ev.HeartbeatFires? || ev.ClientSubmits? {
      LeaderKeeps(s, ev);
    } else if ev.VoteArrives? || ev.VoteReplyArrives? {
      VotingKeeps(s, ev);
    } else {
      AppendingKeeps(s, ev);
    }
  }

  lemma {:induction false} RunInv(run: seq<State>, events: seq<Event>, i: nat)
    requires Run(Repaired, run, events) && i < |run|
    ensures Inv(run[i])
  {
    if i == 0 {
      InitInv(run[0]);
    } else {
      RunInv(run, events, i - 1);
      assert StepAt(Repaired, run, events, i - 1);
      StepKeeps(run[i - 1], events[i - 1]);
    }
  }

  // ----- history only grows -----

  /** A step that changes one node, lowers no term and touches no reign. */
  lemma NodeExtends(s: State, s': State, n: string)
    requires OneNode(s, s', n) && s.nodes[n].term <= s'.nodes[n].term
    requires s.appends <= s'.appends && s.acks <= s'.acks && s'.reigns == s.reigns
    ensures Extends(s, s')
  {
    assert s'.nodes.Keys == s.nodes.Keys;
  }

  lemma VotesExtends(s: State, id: CallId)
    requires Enabled(Repaired, s, VoteArrives(id))
    ensures Extends(s, Fire(Repaired, s, VoteArrives(id)))
  {
    NodeExtends(s, Cluster.Votes(Repaired, s, id), id.voter);
  }

  lemma CountsExtends(s: State, id: CallId)
    requires Inv(s) && Enabled(Repaired, s, VoteReplyArrives(id))
    ensures Extends(s, CountsVote(Repaired, s, id))
  {
    var t := ReplyOutcome(s, id);
    DeliverExtends(t, CountsVote(Repaired, s, id), id);
    if t != s {
      NodeExtends(s, t, id.candidate);
    }
  }

  lemma DeliverExtends(s: State, s': State, id: CallId)
    requires ConfigOk(s) && VoteInv(s) && ReignsOk(s)
    requires Ignores(s, s', id) || Counts(s, s', id) || Winning(s, s', id)
    ensures Extends(s, s')
  {
    if Winning(s, s', id) {
      WinIsFirst(s, s', id);
      WinGrows(s, s', id);
    } else {
      NodeExtends(s, s', id.candidate);
    }
  }

  lemma AppendTerm(st: NodeState, req: AppendReq)
    requires InBounds(Repaired, st, req)
    ensures AppendEntries(Repaired, st, req).0.term >= st.term
    ensures AppendEntries(Repaired, st, req).1.success ==> AppendEntries(Repaired, st, req).0.term == req.term
  {
  }

  lemma AcknowledgedExtends(s: State, k: Ack)
    requires ReignsOk(s) && AcksOk(s) && Enabled(Repaired, s, AppendReplyArrives(k))
    ensures Extends(s, Fire(Repaired, s, AppendReplyArrives(k)))
  {
    var n := k.req.leader;
    var s' := Acknowledged(Repaired, s, k);
    if IsProgress(s, k) { AcknowledgedNode(s, k); } else { ReplyMoves(s, k); }
    NodeExtends(s, s', n);
  }

  lemma StandsExtends(s: State, n: string, timer: nat)
    requires Enabled(Repaired, s, TimeoutFires(n, timer))
    ensures Extends(s, Fire(Repaired, s, TimeoutFires(n, timer)))
  {
    NodeExtends(s, Stands(s, n), n);
  }

  lemma BeatsExtends(s: State, n: string)
    requires Enabled(Repaired, s, HeartbeatFires(n))
    ensures Extends(s, Fire(Repaired, s, HeartbeatFires(n)))
  {
    BeatStill(s, n);
    StillGrows(s, Beats(s, n));
  }

  lemma AppendsExtends(s: State, a: Append)
    requires Enabled(Repaired, s, AppendArrives(a))
    ensures Extends(s, Fire(Repaired, s, AppendArrives(a)))
  {
    AppendTerm(s.nodes[a.to], a.req);
    NodeExtends(s, Appends(Repaired, s, a), a.to);
  }

  lemma SubmitsExtends(s: State, n: string, c: Command)
    requires ConfigOk(s) && ReignsOk(s) && Enabled(Repaired, s, ClientSubmits(n, c))
    ensures Extends(s, Fire(Repaired, s, ClientSubmits(n, c)))
  {
    SubmitStep(s, n, c);
    SubmitGrows(s, Submits(s, n, c), n, Entry(s.nodes[n].term, c));
  }

  lemma RestartExtends(s: State, n: string)
    requires ConfigOk(s) && NodesOk(s) && Enabled(Repaired, s, Restarts(n))
    ensures Extends(s, Fire(Repaired, s, Restarts(n)))
  {
    assert NodeOk(s.nodes[n], s.peers[n]);
    NodeExtends(s, PutNode(s, n, Restart(Repaired, s.nodes[n], s.peers[n])), n);
  }

  lemma LocalStepExtends(s: State, ev: Event)
    requires ConfigOk(s) && NodesOk(s) && ReignsOk(s) && Enabled(Repaired, s, ev)
    requires ev.TimeoutFires? || ev.HeartbeatFires? || ev.ClientSubmits? || ev.Restarts?
    ensures Extends(s, Fire(Repaired, s, ev))
  {
    hide NodesOk, ReignsOk, ConfigOk, Extends;
    match ev
    case TimeoutFires(n, timer) => StandsExtends(s, n, timer);
    case HeartbeatFires(n) => BeatsExtends(s, n);
    case ClientSubmits(n, c) => SubmitsExtends(s, n, c);
    case Restarts(n) => RestartExtends(s, n);
  }

  lemma MessageStepExtends(s: State, ev: Event)
    requires ReignsOk(s) && AcksOk(s) && Enabled(Repaired, s, ev)
    requires ev.VoteArrives? || ev.AppendArrives? || ev.AppendReplyArrives?
    ensures Extends(s, Fire(Repaired, s, ev))
  {
    match ev
    case VoteArrives(id) => VotesExtends(s, id);
    case AppendArrives(a) => AppendsExtends(s, a);
    case AppendReplyArrives(k) => AcknowledgedExtends(s, k);
  }

  lemma StepExtends(s: State, ev: Event)
    requires Inv(s) && Enabled(Repaired, s, ev)
    ensures Extends(s, Fire(Repaired, s, ev))
  {
    hide Extends;
    if ev.VoteReplyArrives? {
      CountsExtends(s, ev.id);
    } else if ev.VoteArrives? || ev.AppendArrives? || ev.AppendReplyArrives? {
      MessageStepExtends(s, ev);
    } else {
      LocalStepExtends(s, ev);
    }
  }

  lemma RunStepExtends(run: seq<State>, events: seq<Event>, i: nat)
    requires Run(Repaired, run, events) && i < |events|
    ensures Extends(run[i], run[i + 1])
  {
    RunInv(run, events, i);
    assert StepAt(Repaired, run, events, i);
    StepExtends(run[i], events[i]);
  }

  lemma {:induction false} RunExtends(run: seq<State>, events: seq<Event>, i: nat, j: nat)
    requires Run(Repaired, run, events) && i <= j < |run|
    ensures Extends(run[i], run[j])
    decreases j - i
  {
    if i == j {
    } else {
      RunExtends(run, events, i, j - 1);
      RunStepExtends(run, events, j - 1);
    }
  }

}
