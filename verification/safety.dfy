/** The guarantees of the repaired cluster, over every run and between any two moments of it. */
module Safety {
  import opened RaftTypes
  import opened LogMerge
  import opened Commitment
  import opened Handlers
  import opened Cluster
  import opened Invariant
  import opened Growth
  import opened Votes
  import opened Elections
  import opened Replication
  import opened Leadership
  import opened Induction

  ghost predicate LeadsAt(s: State, n: string, t: nat) {
    n in s.nodes && s.nodes[n].role == Leader && s.nodes[n].term == t
  }

  lemma RunLeader(run: seq<State>, events: seq<Event>, i: nat, n: string, t: nat)
    requires Run(Repaired, run, events) && i < |run| && LeadsAt(run[i], n, t)
    ensures t in run[i].reigns && run[i].reigns[t].leader == n
    ensures run[i].nodes[n].log == run[i].reigns[t].log && run[i].reigns[t].base <= run[i].nodes[n].log
  {
    RunInv(run, events, i);
  }

  lemma RunReign(run: seq<State>, events: seq<Event>, i: nat, j: nat)
    requires Run(Repaired, run, events) && i <= j < |run|
    ensures forall t | t in run[i].reigns :: t in run[j].reigns && ReignGrows(run[i].reigns[t], run[j].reigns[t])
  {
    RunExtends(run, events, i, j);
  }

  // ----- Election Safety -----

  /** A term never has two leaders, at the same moment or at different ones, although a
      follower's vote can be cleared within the term. */
  lemma ElectionSafety(run: seq<State>, events: seq<Event>, i: nat, a: string, j: nat, b: string, t: nat)
    requires Run(Repaired, run, events) && i < |run| && j < |run|
    requires LeadsAt(run[i], a, t) && LeadsAt(run[j], b, t)
    ensures a == b
  {
    RunLeader(run, events, i, a, t);
    RunLeader(run, events, j, b, t);
    if i <= j { RunReign(run, events, i, j); } else { RunReign(run, events, j, i); }
  }

  // ----- Log Matching -----

  lemma RunBacked(run: seq<State>, events: seq<Event>, i: nat, j: nat, n: string)
    requires Run(Repaired, run, events) && i <= j < |run| && n in run[i].nodes
    ensures Backed(run[i].nodes[n].log, run[j].reigns)
  {
    RunInv(run, events, i);
    RunExtends(run, events, i, j);
    ExtendsBacked(run[i], run[j], run[i].nodes[n].log);
  }

  lemma ExtendsBacked(s: State, s': State, log: seq<Entry>)
    requires Extends(s, s') && Backed(log, s.reigns)
    ensures Backed(log, s'.reigns)
  {
    assert forall t | t in s.reigns :: ReignGrows(s.reigns[t], s'.reigns[t]);
    BackedExtends(log, s.reigns, s'.reigns);
  }

  /** Two logs, of any nodes at any moments, with the same term at an index agree through it. */
  lemma LogMatching(run: seq<State>, events: seq<Event>, i: nat, a: string, j: nat, b: string, x: nat)
    requires Run(Repaired, run, events) && i <= j < |run| && a in run[i].nodes && b in run[j].nodes
    requires x < |run[i].nodes[a].log| && x < |run[j].nodes[b].log|
    requires run[i].nodes[a].log[x].term == run[j].nodes[b].log[x].term
    ensures run[i].nodes[a].log[..x + 1] == run[j].nodes[b].log[..x + 1]
  {
    RunBacked(run, events, i, j, a);
    RunBacked(run, events, j, j, b);
    var p, q := run[i].nodes[a].log, run[j].nodes[b].log;
    BackedMatch(p, q, run[j].reigns);
    assert MatchAt(p, q, x);
  }

  /** Terms never go down inside a log and never exceed the node's own term. */
  lemma LogTermsOrdered(run: seq<State>, events: seq<Event>, i: nat, a: string)
    requires Run(Repaired, run, events) && i < |run| && a in run[i].nodes
    ensures Sorted(run[i].nodes[a].log) && TermsWithin(run[i].nodes[a].log, run[i].nodes[a].term)
  {
    RunInv(run, events, i);
    assert NodeOk(run[i].nodes[a], run[i].peers[a]);
  }

  // ----- Leader Completeness -----

  lemma ReignComplete(s: State, t: nat, n: int, u: nat)
    requires Inv(s) && Committed(s, t, n) && u in s.reigns && t < u
    ensures Point(s, t, n) && Upto(s, t, n) <= s.reigns[u].base
  {
    LeaderComplete(s, t, n, u);
  }

  /** What a leader of term `t` committed by the majority rule at moment `i` is in the log of
      every leader of a later term, at whatever moment that one leads. */
  lemma LeaderCompleteness(run: seq<State>, events: seq<Event>, i: nat, t: nat, n: int, j: nat, b: string, u: nat)
    requires Run(Repaired, run, events) && i < |run| && j < |run|
    requires Committed(run[i], t, n) && LeadsAt(run[j], b, u) && t < u
    ensures t in run[i].reigns && 0 <= n <= |run[i].reigns[t].log|
    ensures Upto(run[i], t, n) <= run[j].nodes[b].log
  {
    var last := if i <= j then j else i;
    CommittedPoint(run[i], t, n);
    RunLeader(run, events, j, b, u);
    RunReign(run, events, j, last);
    RunExtends(run, events, i, last);
    PointGrows(run[i], run[last], t, n);
    CommittedGrows(run[i], run[last], t, n);
    RunInv(run, events, last);
    ReignComplete(run[last], t, n, u);
    PrefixChain(Upto(run[i], t, n), run[j].reigns[u].base, run[j].nodes[b].log);
  }

  lemma CommittedPoint(s: State, t: nat, n: int)
    requires Committed(s, t, n)
    ensures Point(s, t, n)
  {
    var r :| CommittedBy(s, t, n, r);
  }

  lemma PrefixChain(a: seq<Entry>, b: seq<Entry>, c: seq<Entry>)
    requires a <= b <= c
    ensures a <= c
  {
    assert c[..|a|] == c[..|b|][..|a|];
  }

  // ----- State Machine Safety -----

  lemma SafeCompare(s: State, p: seq<Entry>, a: nat, q: seq<Entry>, b: nat)
    requires ReignsOk(s) && CompleteOk(s) && Safe(s, p, a) && Safe(s, q, b)
    ensures p <= q || q <= p
  {
    if p != [] && q != [] {
      var t: nat, n :| t <= a && Covers(s, t, n, p);
      var u: nat, m :| u <= b && Covers(s, u, m, q);
      var v := if t <= u then u else t;
      assert Safe(s, p, t) && Safe(s, q, u);
      SafeInReign(s, p, t, v);
      SafeInReign(s, q, u, v);
    }
  }

  lemma QueueSafe(s: State, n: string)
    requires ConfigOk(s) && NodesOk(s) && CommitsOk(s) && n in s.nodes
    ensures Safe(s, s.nodes[n].queue, s.nodes[n].term)
  {
    assert NodeOk(s.nodes[n], s.peers[n]);
  }

  lemma RunQueueSafe(run: seq<State>, events: seq<Event>, i: nat, n: string, j: nat)
    requires Run(Repaired, run, events) && i <= j < |run| && n in run[i].nodes
    ensures Safe(run[j], run[i].nodes[n].queue, run[i].nodes[n].term)
  {
    RunInv(run, events, i);
    QueueSafe(run[i], n);
    RunExtends(run, events, i, j);
    SafeGrows(run[i], run[j], run[i].nodes[n].queue, run[i].nodes[n].term, run[i].nodes[n].term);
  }

  lemma RunCompare(run: seq<State>, events: seq<Event>, i: nat, p: seq<Entry>, a: nat, q: seq<Entry>, b: nat)
    requires Run(Repaired, run, events) && i < |run| && Safe(run[i], p, a) && Safe(run[i], q, b)
    ensures p <= q || q <= p
  {
    RunInv(run, events, i);
    SafeCompare(run[i], p, a, q, b);
  }

  /** What two nodes have pushed to their commit queues, at any two moments and across any
      number of restarts, is one sequence and a beginning of it. */
  lemma StateMachineSafety(run: seq<State>, events: seq<Event>, i: nat, a: string, j: nat, b: string)
    requires Run(Repaired, run, events) && i < |run| && j < |run| && a in run[i].nodes && b in run[j].nodes
    ensures var p, q := run[i].nodes[a].queue, run[j].nodes[b].queue;
            (p <= q || q <= p) && forall x | 0 <= x < |p| && x < |q| :: p[x] == q[x]
  {
    var last := if i <= j then j else i;
    RunQueueSafe(run, events, i, a, last);
    RunQueueSafe(run, events, j, b, last);
    var x, y := run[i].nodes[a], run[j].nodes[b];
    RunCompare(run, events, last, x.queue, x.term, y.queue, y.term);
  }

  // ----- the committed prefix of a node -----

  function Done(st: NodeState): (committed: seq<Entry>)
    requires -1 <= st.commit < |st.log|
  {
    st.log[..st.commit + 1]
  }

  /** What was committed is still there, committed, and pushed. */
  ghost predicate KeepsDone(a: NodeState, b: NodeState) {
    && -1 <= a.commit < |a.log| && Done(a) <= b.log
    && a.commit <= b.commit && a.queue <= b.queue
  }

  lemma StepStays(s: State, ev: Event, n: string)
    requires Inv(s) && Enabled(Repaired, s, ev) && n in s.nodes
    ensures n in Fire(Repaired, s, ev).nodes && AppliesAll(Fire(Repaired, s, ev).nodes[n])
    ensures if ev == Restarts(n) then Fire(Repaired, s, ev).nodes[n].log == s.nodes[n].log
            else KeepsDone(s.nodes[n], Fire(Repaired, s, ev).nodes[n])
  {
    NodeAfter(s, ev, n);
    if ev == Restarts(n) { RestartLog(s, n); } else { NodeStep(s, ev, n); }
  }

  lemma RunApplies(run: seq<State>, events: seq<Event>, i: nat, n: string)
    requires Run(Repaired, run, events) && i < |run| && n in run[i].nodes
    ensures AppliesAll(run[i].nodes[n])
  {
    RunInv(run, events, i);
    NodeApplies(run[i], n);
  }

  /** No event of a run but a restart of the node itself lowers its commit index, changes or drops
      an entry it has committed, or takes back what it has pushed; a restart keeps the log; and
      what has been pushed since the node started is exactly its log through the last applied
      index. */
  lemma CommittedPrefixStays(run: seq<State>, events: seq<Event>, i: nat, n: string)
    requires Run(Repaired, run, events) && i < |events| && n in run[i].nodes
    ensures n in run[i + 1].nodes && AppliesAll(run[i].nodes[n]) && AppliesAll(run[i + 1].nodes[n])
    ensures if events[i] == Restarts(n) then
              run[i + 1].nodes[n].log == run[i].nodes[n].log && run[i + 1].nodes[n].queue == []
            else KeepsDone(run[i].nodes[n], run[i + 1].nodes[n])
  {
    RunApplies(run, events, i, n);
    RunInv(run, events, i);
    assert StepAt(Repaired, run, events, i);
    StepStays(run[i], events[i], n);
  }

  lemma RestartLog(s: State, n: string)
    requires ConfigOk(s) && NodesOk(s) && n in s.nodes
    ensures Restart(Repaired, s.nodes[n], s.peers[n]).log == s.nodes[n].log
  {
    assert NodeOk(s.nodes[n], s.peers[n]);
  }

  ghost predicate AppliesAll(st: NodeState) {
    -1 <= st.commit == st.applied < |st.log| && st.queue == st.log[..st.applied + 1]
  }

  lemma StepNodes(s: State, ev: Event)
    requires Inv(s) && Enabled(Repaired, s, ev)
    ensures var s' := Fire(Repaired, s, ev); ConfigOk(s') && NodesOk(s') && s'.nodes.Keys == s.nodes.Keys
  {
    StepKeeps(s, ev);
    StepExtends(s, ev);
  }

  lemma NodeApplies(s: State, n: string)
    requires ConfigOk(s) && NodesOk(s) && n in s.nodes
    ensures AppliesAll(s.nodes[n])
  {
    assert NodeOk(s.nodes[n], s.peers[n]);
  }

  lemma NodeAfter(s: State, ev: Event, n: string)
    requires Inv(s) && Enabled(Repaired, s, ev) && n in s.nodes
    ensures n in Fire(Repaired, s, ev).nodes && AppliesAll(Fire(Repaired, s, ev).nodes[n])
  {
    StepNodes(s, ev);
    NodeApplies(Fire(Repaired, s, ev), n);
  }

  lemma TakenDone(s: State, a: Append)
    requires ConfigOk(s) && ReignsOk(s) && BackedOk(s) && CompleteOk(s) && CommitsOk(s) && AppendOk(s, a)
    requires NodeOk(s.nodes[a.to], s.peers[a.to]) && Takes(s.nodes[a.to], a.req)
    ensures var st, log := s.nodes[a.to], Taken(Repaired, s.nodes[a.to], a.req);
            AppliesAll(st) && st.commit < |log| && Done(st) == log[..st.commit + 1]
  {
    hide Taken, BackedOk, CompleteOk, CommitsOk, ReignsOk, AppendOk;
    TakenNode(s, a);
  }

  lemma HeardDone(st: NodeState, req: AppendReq)
    requires AppliesAll(st) && InBounds(Repaired, st, req) && !Takes(st, req)
    ensures KeepsDone(st, AppendEntries(Repaired, st, req).0)
  {
  }

  lemma FollowDone(st: NodeState, log: seq<Entry>, req: AppendReq)
    requires InBounds(Repaired, st, req) && Takes(st, req) && log == Taken(Repaired, st, req)
    requires AppliesAll(st) && st.commit < |log| && Done(st) == log[..st.commit + 1]
    ensures KeepsDone(st, AppendEntries(Repaired, st, req).0)
  {
    var t := Heard(st, req.term);
    assert t.log == st.log && t.queue == st.queue && t.commit == t.applied == st.commit;
    var r := FollowCommit(WithLog(t, log), req.commit);
    assert r.log == log && r.commit >= st.commit && st.queue <= r.queue;
    assert AppendEntries(Repaired, st, req).0 == r;
  }

  lemma AckDone(st: NodeState, peers: seq<string>, from: string, req: AppendReq, rep: AppendRep)
    requires AppliesAll(st)
    ensures KeepsDone(st, AppendReply(Repaired, st, peers, from, req, rep))
  {
  }

  ghost predicate KeepsTaking(st: NodeState, req: AppendReq) {
    && AppliesAll(st)
    && (Takes(st, req) ==> var log := Taken(Repaired, st, req);
                           st.commit < |log| && Done(st) == log[..st.commit + 1])
  }

  lemma MessageKnown(s: State, a: Append)
    requires ConfigOk(s) && NodesOk(s) && AppendsOk(s) && a in s.appends
    ensures AppendOk(s, a) && NodeOk(s.nodes[a.to], s.peers[a.to]) && AppliesAll(s.nodes[a.to])
  {
    assert AppendOk(s, a);
    assert NodeOk(s.nodes[a.to], s.peers[a.to]);
  }

  lemma TakingDone(st: NodeState, req: AppendReq)
    requires InBounds(Repaired, st, req) && KeepsTaking(st, req)
    ensures KeepsDone(st, AppendEntries(Repaired, st, req).0)
  {
    if Takes(st, req) { FollowDone(st, Taken(Repaired, st, req), req); } else { HeardDone(st, req); }
  }

  lemma AppendStepDone(s: State, a: Append)
    requires BaseInv(s) && AppendsOk(s) && CompleteOk(s) && CommitsOk(s) && Enabled(Repaired, s, AppendArrives(a))
    ensures KeepsDone(s.nodes[a.to], AppendEntries(Repaired, s.nodes[a.to], a.req).0)
  {
    MessageKnown(s, a);
    if Takes(s.nodes[a.to], a.req) { TakenDone(s, a); }
    TakingDone(s.nodes[a.to], a.req);
  }

  lemma NodeStep(s: State, ev: Event, n: string)
    requires Inv(s) && Enabled(Repaired, s, ev) && n in s.nodes && ev != Restarts(n)
    ensures n in Fire(Repaired, s, ev).nodes && KeepsDone(s.nodes[n], Fire(Repaired, s, ev).nodes[n])
  {
    NodeApplies(s, n);
    if ev.AppendArrives? {
      AppendStepDone(s, ev.msg);
      AppendElse(s, ev.msg, n);
    } else {
      SimpleStep(s, ev, n);
    }
  }

  lemma AppendElse(s: State, a: Append, n: string)
    requires Enabled(Repaired, s, AppendArrives(a)) && n in s.nodes && AppliesAll(s.nodes[n])
    requires KeepsDone(s.nodes[a.to], AppendEntries(Repaired, s.nodes[a.to], a.req).0)
    ensures n in Appends(Repaired, s, a).nodes && KeepsDone(s.nodes[n], Appends(Repaired, s, a).nodes[n])
  {
  }

  lemma SelfDone(st: NodeState)
    requires AppliesAll(st)
    ensures KeepsDone(st, st)
  {
  }

  lemma VoteReplyDone(st: NodeState, peers: seq<string>, req: VoteReq, rep: VoteRep)
    requires AppliesAll(st)
    ensures KeepsDone(st, VoteReply(Repaired, st, peers, req, rep))
  {
  }

  lemma SubmitDone(st: NodeState, e: Entry)
    requires AppliesAll(st)
    ensures KeepsDone(st, Submit(st, e))
  {
    assert (st.log + [e])[..st.commit + 1] == Done(st);
  }

  lemma VoteStep(s: State, ev: Event, n: string)
    requires Enabled(Repaired, s, ev) && n in s.nodes && AppliesAll(s.nodes[n])
             && (ev.VoteArrives? || ev.VoteReplyArrives?)
    ensures n in Fire(Repaired, s, ev).nodes && KeepsDone(s.nodes[n], Fire(Repaired, s, ev).nodes[n])
  {
    var st := s.nodes[n];
    SelfDone(st);
    if ev.VoteArrives? {
    } else if n == ev.id.candidate {
      VoteReplyDone(st, s.peers[n], s.calls[ev.id].req, s.calls[ev.id].reply.value);
    }
  }

  lemma LocalStep(s: State, ev: Event, n: string)
    requires Enabled(Repaired, s, ev) && n in s.nodes && AppliesAll(s.nodes[n]) && ev != Restarts(n)
    requires !ev.AppendArrives? && !ev.VoteArrives? && !ev.VoteReplyArrives?
    ensures n in Fire(Repaired, s, ev).nodes && KeepsDone(s.nodes[n], Fire(Repaired, s, ev).nodes[n])
  {
    var st := s.nodes[n];
    SelfDone(st);
    match ev
    case AppendReplyArrives(k) => if n == k.req.leader { AckDone(st, s.peers[n], k.from, k.req, k.rep); }
    case ClientSubmits(_, c) => SubmitDone(st, Entry(st.term, c));
    case _ =>
  }

  lemma SimpleStep(s: State, ev: Event, n: string)
    requires Enabled(Repaired, s, ev) && n in s.nodes && AppliesAll(s.nodes[n])
    requires !ev.AppendArrives? && ev != Restarts(n)
    ensures n in Fire(Repaired, s, ev).nodes && KeepsDone(s.nodes[n], Fire(Repaired, s, ev).nodes[n])
  {
    hide Fire, KeepsDone, AppliesAll;
    if ev.VoteArrives? || ev.VoteReplyArrives? { VoteStep(s, ev, n); } else { LocalStep(s, ev, n); }
  }

  // ----- committed entries stay in the logs that had them, across crashes -----

  lemma SafeTaken(s: State, a: Append, x: seq<Entry>, t: nat)
    requires ReignsOk(s) && BackedOk(s) && CompleteOk(s) && AppendOk(s, a) && Takes(s.nodes[a.to], a.req)
    requires Safe(s, x, t) && t <= s.nodes[a.to].term && x <= s.nodes[a.to].log
    ensures x <= Taken(Repaired, s.nodes[a.to], a.req)
  {
    TakenLog(s, a);
    SafeInReign(s, x, t, a.req.term);
  }

  lemma AppendedLog(st: NodeState, req: AppendReq)
    requires InBounds(Repaired, st, req)
    ensures AppendEntries(Repaired, st, req).0.log == if Takes(st, req) then Taken(Repaired, st, req) else st.log
  {
  }

  lemma VoteLogs(s: State, ev: Event, n: string)
    requires Enabled(Repaired, s, ev) && n in s.nodes && ev.VoteArrives?
    ensures n in Fire(Repaired, s, ev).nodes && s.nodes[n].log == Fire(Repaired, s, ev).nodes[n].log
  {
  }

  lemma VoteReplyLog(st: NodeState, peers: seq<string>, req: VoteReq, rep: VoteRep)
    ensures VoteReply(Repaired, st, peers, req, rep).log == st.log
  {
  }

  lemma VoteReplyLogs(s: State, ev: Event, n: string)
    requires Enabled(Repaired, s, ev) && n in s.nodes && ev.VoteReplyArrives?
    ensures n in Fire(Repaired, s, ev).nodes && s.nodes[n].log == Fire(Repaired, s, ev).nodes[n].log
  {
    hide VoteReply;
    var id := ev.id;
    VoteReplyLog(s.nodes[id.candidate], s.peers[id.candidate], s.calls[id].req, s.calls[id].reply.value);
  }

  lemma AckLogs(s: State, ev: Event, n: string)
    requires Enabled(Repaired, s, ev) && n in s.nodes && ev.AppendReplyArrives?
    ensures n in Fire(Repaired, s, ev).nodes && s.nodes[n].log == Fire(Repaired, s, ev).nodes[n].log
  {
  }

  lemma LocalLogs(s: State, ev: Event, n: string)
    requires Enabled(Repaired, s, ev) && n in s.nodes && ev != Restarts(n)
    requires ev.AppendArrives? ==> n != ev.msg.to
    requires !ev.VoteArrives? && !ev.VoteReplyArrives? && !ev.AppendReplyArrives?
    ensures n in Fire(Repaired, s, ev).nodes && s.nodes[n].log <= Fire(Repaired, s, ev).nodes[n].log
  {
  }

  lemma OtherLogs(s: State, ev: Event, n: string)
    requires Enabled(Repaired, s, ev) && n in s.nodes && AppliesAll(s.nodes[n]) && ev != Restarts(n)
    requires ev.AppendArrives? ==> n != ev.msg.to
    ensures n in Fire(Repaired, s, ev).nodes && s.nodes[n].log <= Fire(Repaired, s, ev).nodes[n].log
  {
    hide Fire;
    if ev.VoteArrives? {
      VoteLogs(s, ev, n);
    } else if ev.VoteReplyArrives? {
      VoteReplyLogs(s, ev, n);
    } else if ev.AppendReplyArrives? {
      AckLogs(s, ev, n);
    } else {
      LocalLogs(s, ev, n);
    }
  }

  lemma AppendStays(s: State, a: Append, x: seq<Entry>, t: nat)
    requires ReignsOk(s) && BackedOk(s) && CompleteOk(s) && AppendOk(s, a) && Enabled(Repaired, s, AppendArrives(a))
    requires Safe(s, x, t) && t <= s.nodes[a.to].term && x <= s.nodes[a.to].log
    ensures a.to in Appends(Repaired, s, a).nodes && x <= Appends(Repaired, s, a).nodes[a.to].log
  {
    AppendedLog(s.nodes[a.to], a.req);
    if Takes(s.nodes[a.to], a.req) { SafeTaken(s, a, x, t); }
  }

  lemma OtherStays(s: State, ev: Event, n: string, x: seq<Entry>)
    requires Enabled(Repaired, s, ev) && n in s.nodes && AppliesAll(s.nodes[n]) && ev != Restarts(n)
    requires (ev.AppendArrives? ==> n != ev.msg.to) && x <= s.nodes[n].log
    ensures n in Fire(Repaired, s, ev).nodes && x <= Fire(Repaired, s, ev).nodes[n].log
  {
    OtherLogs(s, ev, n);
    PrefixChain(x, s.nodes[n].log, Fire(Repaired, s, ev).nodes[n].log);
  }

  lemma SafeStays(s: State, ev: Event, n: string, x: seq<Entry>, t: nat)
    requires BaseInv(s) && AppendsOk(s) && CompleteOk(s) && Enabled(Repaired, s, ev) && n in s.nodes
    requires Safe(s, x, t) && t <= s.nodes[n].term && x <= s.nodes[n].log
    ensures n in Fire(Repaired, s, ev).nodes && x <= Fire(Repaired, s, ev).nodes[n].log
  {
    hide AppliesAll, NodesOk, AppendsOk, Safe, Fire;
    NodeApplies(s, n);
    if ev == Restarts(n) {
      RestartStays(s, n, x);
    } else if ev.AppendArrives? && ev.msg.to == n {
      MessageStays(s, ev.msg, x, t);
    } else {
      OtherStays(s, ev, n, x);
    }
  }

  lemma RestartStays(s: State, n: string, x: seq<Entry>)
    requires ConfigOk(s) && NodesOk(s) && Enabled(Repaired, s, Restarts(n)) && x <= s.nodes[n].log
    ensures n in Fire(Repaired, s, Restarts(n)).nodes && x <= Fire(Repaired, s, Restarts(n)).nodes[n].log
  {
    RestartLog(s, n);
  }

  lemma MessageStays(s: State, a: Append, x: seq<Entry>, t: nat)
    requires BaseInv(s) && AppendsOk(s) && CompleteOk(s) && Enabled(Repaired, s, AppendArrives(a))
    requires Safe(s, x, t) && t <= s.nodes[a.to].term && x <= s.nodes[a.to].log
    ensures a.to in Fire(Repaired, s, AppendArrives(a)).nodes
            && x <= Fire(Repaired, s, AppendArrives(a)).nodes[a.to].log
  {
    hide Appends, CompleteOk, AppendOk;
    MessageKnown(s, a);
    AppendStays(s, a, x, t);
  }

  lemma DoneSafe(s: State, n: string)
    requires ConfigOk(s) && NodesOk(s) && CommitsOk(s) && n in s.nodes
    ensures AppliesAll(s.nodes[n]) && Safe(s, Done(s.nodes[n]), s.nodes[n].term)
  {
    NodeApplies(s, n);
  }

  lemma RunDoneSafe(run: seq<State>, events: seq<Event>, i: nat, n: string)
    requires Run(Repaired, run, events) && i < |run| && n in run[i].nodes
    ensures AppliesAll(run[i].nodes[n]) && Safe(run[i], Done(run[i].nodes[n]), run[i].nodes[n].term)
  {
    RunInv(run, events, i);
    DoneSafe(run[i], n);
  }

  /** An entry a node has committed is in its log at every later moment, restarts included. */
  lemma {:induction false} CommittedForever(run: seq<State>, events: seq<Event>, i: nat, j: nat, n: string)
    requires Run(Repaired, run, events) && i <= j < |run| && n in run[i].nodes
    ensures AppliesAll(run[i].nodes[n]) && n in run[j].nodes && Done(run[i].nodes[n]) <= run[j].nodes[n].log
    decreases j - i
  {
    RunDoneSafe(run, events, i, n);
    if i < j {
      CommittedForever(run, events, i, j - 1, n);
      RunSafeStays(run, events, i, j - 1, n, Done(run[i].nodes[n]));
    }
  }

  /** Whatever any node has committed at a moment is in the log of every leader of a later term
      than the node's, at whatever moment that one leads. */
  lemma CommitsReachLeaders(run: seq<State>, events: seq<Event>, i: nat, a: string, j: nat, b: string, u: nat)
    requires Run(Repaired, run, events) && i < |run| && j < |run| && a in run[i].nodes
    requires LeadsAt(run[j], b, u) && run[i].nodes[a].term < u
    ensures AppliesAll(run[i].nodes[a]) && Done(run[i].nodes[a]) <= run[j].nodes[b].log
  {
    RunDoneSafe(run, events, i, a);
    var done := Done(run[i].nodes[a]);
    if done != [] {
      var t: nat, n :| t <= run[i].nodes[a].term && Covers(run[i], t, n, done);
      LeaderCompleteness(run, events, i, t, n, j, b, u);
      assert done <= Upto(run[i], t, n);
      PrefixChain(done, Upto(run[i], t, n), run[j].nodes[b].log);
    }
  }

  lemma RunSafeStays(run: seq<State>, events: seq<Event>, i: nat, j: nat, n: string, x: seq<Entry>)
    requires Run(Repaired, run, events) && i <= j < |events| && n in run[i].nodes && n in run[j].nodes
    requires Safe(run[i], x, run[i].nodes[n].term) && x <= run[j].nodes[n].log
    ensures n in run[j + 1].nodes && x <= run[j + 1].nodes[n].log
  {
    RunExtends(run, events, i, j);
    SafeGrows(run[i], run[j], x, run[i].nodes[n].term, run[i].nodes[n].term);
    RunInv(run, events, j);
    assert StepAt(Repaired, run, events, j);
    SafeStays(run[j], events[j], n, x, run[i].nodes[n].term);
  }

  // ----- match indices -----

  lemma RunAckMoment(run: seq<State>, events: seq<Event>, j: nat, k: Ack)
    requires Run(Repaired, run, events) && j < |events| && k !in run[j].acks && k in run[j + 1].acks && k.rep.success
    ensures k.from in run[j + 1].nodes && run[j + 1].nodes[k.from].term == k.req.term
  {
    assert StepAt(Repaired, run, events, j);
  }

  lemma {:induction false} AckHistory(run: seq<State>, events: seq<Event>, j: nat, k: Ack) returns (i: nat)
    requires Run(Repaired, run, events) && j < |run| && k in run[j].acks && k.rep.success
    ensures i <= j && k in run[i].acks && k.from in run[i].nodes && run[i].nodes[k.from].term == k.req.term
  {
    if k in run[j - 1].acks {
      i := AckHistory(run, events, j - 1, k);
    } else {
      RunAckMoment(run, events, j - 1, k);
      i := j;
    }
  }

  lemma RunAckedLog(run: seq<State>, events: seq<Event>, i: nat, k: Ack)
    requires Run(Repaired, run, events) && i < |run|
    requires k in run[i].acks && k.rep.success && k.from in run[i].nodes && run[i].nodes[k.from].term == k.req.term
    ensures k.req.term in run[i].reigns && 0 <= End(k.req) <= |run[i].reigns[k.req.term].log|
    ensures Upto(run[i], k.req.term, End(k.req)) <= run[i].nodes[k.from].log
  {
    RunInv(run, events, i);
  }

  lemma MatchedAck(s: State, n: string, p: string) returns (k: Ack)
    requires ConfigOk(s) && MatchOk(s) && ReignsOk(s) && n in s.nodes && s.nodes[n].role == Leader
    requires p in s.peers[n] && Get(s.nodes[n].matched, p) >= 0
    ensures k in s.acks && AckCovers(k, p, s.nodes[n].term, Get(s.nodes[n].matched, p) + 1)
    ensures s.nodes[n].term in s.reigns && s.reigns[s.nodes[n].term].log == s.nodes[n].log
    ensures Get(s.nodes[n].matched, p) + 1 <= |s.nodes[n].log|
  {
    assert Acked(s, p, s.nodes[n].term, Get(s.nodes[n].matched, p) + 1);
    PeerIsOther(s, n, p);
    k :| k in s.acks && AckCovers(k, p, s.nodes[n].term, Get(s.nodes[n].matched, p) + 1);
  }

  lemma RunMatchedAck(run: seq<State>, events: seq<Event>, j: nat, n: string, p: string) returns (k: Ack)
    requires Run(Repaired, run, events) && j < |run| && n in run[j].nodes && run[j].nodes[n].role == Leader
    requires n in run[j].peers && p in run[j].peers[n] && Get(run[j].nodes[n].matched, p) >= 0
    ensures k in run[j].acks && AckCovers(k, p, run[j].nodes[n].term, Get(run[j].nodes[n].matched, p) + 1)
    ensures run[j].nodes[n].term in run[j].reigns && run[j].reigns[run[j].nodes[n].term].log == run[j].nodes[n].log
    ensures Get(run[j].nodes[n].matched, p) + 1 <= |run[j].nodes[n].log|
  {
    RunInv(run, events, j);
    k := MatchedAck(run[j], n, p);
  }

  /** A match index speaks of a moment at which the peer, in the leader's term, held the
      leader's log that far; and as long as the peer's term has not moved on it still does. */
  lemma MatchIndexSound(run: seq<State>, events: seq<Event>, j: nat, n: string, p: string) returns (i: nat)
    requires Run(Repaired, run, events) && j < |run| && n in run[j].nodes && run[j].nodes[n].role == Leader
    requires n in run[j].peers && p in run[j].peers[n] && Get(run[j].nodes[n].matched, p) >= 0
    ensures var m := Get(run[j].nodes[n].matched, p) + 1;
            && m <= |run[j].nodes[n].log| && i <= j && p in run[i].nodes && p in run[j].nodes
            && run[i].nodes[p].term == run[j].nodes[n].term
            && run[j].nodes[n].log[..m] <= run[i].nodes[p].log
            && (run[j].nodes[p].term == run[j].nodes[n].term ==> run[j].nodes[n].log[..m] <= run[j].nodes[p].log)
  {
    var t := run[j].nodes[n].term;
    var m := Get(run[j].nodes[n].matched, p) + 1;
    var k := RunMatchedAck(run, events, j, n, p);
    i := AckHistory(run, events, j, k);
    RunAckedLog(run, events, i, k);
    RunExtends(run, events, i, j);
    RunReign(run, events, i, j);
    if run[j].nodes[p].term == t {
      RunAckedLog(run, events, j, k);
    }
  }

  // ----- durability and defined behaviour -----

  /** At every moment a crash of any node would bring it back with its term, its vote and its
      log, in any number of crashes; and terms never go down. */
  lemma CrashLosesNothing(run: seq<State>, events: seq<Event>, i: nat, j: nat, n: string)
    requires Run(Repaired, run, events) && i <= j < |run| && n in run[i].nodes
    ensures n in run[j].nodes && n in run[j].peers && run[i].nodes[n].term <= run[j].nodes[n].term
    ensures var st, back := run[j].nodes[n], Restart(Repaired, run[j].nodes[n], run[j].peers[n]);
            && back.term == st.term && back.vote == st.vote && back.log == st.log
            && st.disk == Disk(st.term, st.vote, st.log)
  {
    RunExtends(run, events, i, j);
    RunInv(run, events, j);
    assert NodeOk(run[j].nodes[n], run[j].peers[n]);
  }

  /** No reachable state lets a handler read past the end of a log: every message in flight
      passes the commit clamp (D8), and every leader's next indices are inside its log. */
  lemma NoOverread(run: seq<State>, events: seq<Event>, i: nat)
    requires Run(Repaired, run, events) && i < |run|
    ensures forall a | a in run[i].appends :: a.to in run[i].nodes && InBounds(Repaired, run[i].nodes[a.to], a.req)
                                              && a.req.commit < End(a.req)
    ensures forall n | n in run[i].nodes :: run[i].nodes[n].commit < |run[i].nodes[n].log|
    ensures forall n | n in run[i].nodes && run[i].nodes[n].role == Leader ::
              n in run[i].peers && MayHeartbeat(run[i].nodes[n], run[i].peers[n])
  {
    RunInv(run, events, i);
    forall a | a in run[i].appends
      ensures a.to in run[i].nodes && InBounds(Repaired, run[i].nodes[a.to], a.req) && a.req.commit < End(a.req)
    {
      ClampUnreachable(run[i], a);
    }
  }

}
