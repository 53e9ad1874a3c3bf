/** What steps of a run bring about: who stops leading and why, what a timer starts, what an answer
    teaches its receiver, and how far a follower commits. */
module Steps {
  import opened RaftTypes
  import opened LogMerge
  import opened Commitment
  import opened Handlers
  import opened Cluster
  import opened Network
  import opened Invariant
  import opened Replication
  import opened Induction
  import opened Safety
  import opened Rules

  // ----- a leader stops leading -----

  /** A restart of the leader of term `t`, or a message or an answer to it that ends its reign. As
      written an answer is compared with its request and not with the leader's term (D2), and a
      second leader of the term can exist. */
  ghost predicate Deposes(mode: Mode, s: State, ev: Event, n: string, t: nat) {
    || ev == Restarts(n)
    || (ev.VoteArrives? && ev.id.voter == n && ev.id in s.calls && s.calls[ev.id].req.term > t)
    || (ev.AppendArrives? && ev.msg.to == n && ev.msg.req.term >= t)
    || (ev.AppendReplyArrives? && ev.ack.req.leader == n && ev.ack.rep.term > ev.ack.req.term
        && (mode == Repaired ==> ev.ack.req.term == t))
  }

  lemma AppendDeposesIff(mode: Mode, st: NodeState, req: AppendReq)
    requires InBounds(mode, st, req) && st.role == Leader
    ensures var u := AppendEntries(mode, st, req).0;
            (u.role == Leader && u.term == st.term) <==> req.term < st.term
  {
    FollowerAfter(mode, st, req);
    hide AppendEntries;
  }

  lemma ReplyDeposesIff(mode: Mode, st: NodeState, peers: seq<string>, peer: string, req: AppendReq, rep: AppendRep)
    requires -1 <= st.commit && -1 <= st.applied && st.role == Leader
    ensures var u := AppendReply(mode, st, peers, peer, req, rep);
            (u.role == Leader && u.term == st.term)
            <==> !(rep.term > req.term && (mode == Repaired ==> req.term == st.term))
  {
    hide AdvanceBelow;
  }

  lemma VoteDeposesIff(mode: Mode, st: NodeState, req: VoteReq)
    requires st.role == Leader
    ensures var u := RequestVote(mode, st, req).0;
            (u.role == Leader && u.term == st.term) <==> req.term <= st.term
  {
    VoterAfter(mode, st, req);
    hide RequestVote;
  }

  lemma MessageDeposesIff(mode: Mode, s: State, ev: Event, n: string, t: nat)
    requires Enabled(mode, s, ev) && LeadsAt(s, n, t)
    requires ev.AppendArrives? || ev.AppendReplyArrives?
    ensures LeadsAt(Fire(mode, s, ev), n, t) <==> !Deposes(mode, s, ev, n, t)
  {
    hide AppendEntries, AppendReply, InBounds;
    match ev
    case AppendArrives(a) =>
      if a.to == n { AppendDeposesIff(mode, s.nodes[n], a.req); }
    case AppendReplyArrives(k) =>
      if k.req.leader == n { ReplyDeposesIff(mode, s.nodes[n], s.peers[n], k.from, k.req, k.rep); }
  }

  lemma LocalDeposesIff(mode: Mode, s: State, ev: Event, n: string, t: nat)
    requires Enabled(mode, s, ev) && LeadsAt(s, n, t)
    requires !ev.VoteArrives? && !ev.AppendArrives? && !ev.AppendReplyArrives?
    ensures LeadsAt(Fire(mode, s, ev), n, t) <==> !Deposes(mode, s, ev, n, t)
  {
  }

  lemma RequestDeposesIff(mode: Mode, s: State, id: CallId, n: string, t: nat)
    requires Enabled(mode, s, VoteArrives(id)) && LeadsAt(s, n, t)
    ensures LeadsAt(Fire(mode, s, VoteArrives(id)), n, t) <==> !Deposes(mode, s, VoteArrives(id), n, t)
  {
    hide RequestVote;
    if id.voter == n { VoteDeposesIff(mode, s.nodes[n], s.calls[id].req); }
  }

  /** These are the only ways; in particular no election timer ends a reign. */
  lemma StepDeposesIff(mode: Mode, s: State, ev: Event, n: string, t: nat)
    requires Enabled(mode, s, ev) && LeadsAt(s, n, t)
    ensures LeadsAt(Fire(mode, s, ev), n, t) <==> !Deposes(mode, s, ev, n, t)
  {
    hide Enabled, Fire, Deposes, LeadsAt;
    if ev.VoteArrives? {
      RequestDeposesIff(mode, s, ev.id, n, t);
    } else if ev.AppendArrives? || ev.AppendReplyArrives? {
      MessageDeposesIff(mode, s, ev, n, t);
    } else {
      LocalDeposesIff(mode, s, ev, n, t);
    }
  }

  lemma DeposedIff(mode: Mode, run: seq<State>, events: seq<Event>, i: nat, n: string, t: nat)
    requires Run(mode, run, events) && i < |events| && LeadsAt(run[i], n, t)
    ensures LeadsAt(run[i + 1], n, t) <==> !Deposes(mode, run[i], events[i], n, t)
  {
    assert StepAt(mode, run, events, i);
    StepDeposesIff(mode, run[i], events[i], n, t);
  }

  /** A message or an answer of a later term than `t` reaches `n`, or `n` restarts. */
  ghost predicate LaterTermReaches(s: State, ev: Event, n: string, t: nat) {
    || ev == Restarts(n)
    || (ev.VoteArrives? && ev.id.voter == n && ev.id in s.calls && s.calls[ev.id].req.term > t)
    || (ev.AppendArrives? && ev.msg.to == n && ev.msg.req.term > t)
    || (ev.AppendReplyArrives? && ev.ack.req.leader == n && ev.ack.rep.term > t)
  }

  /** In a repaired run a leader is deposed by a later term or a restart and by nothing else. */
  lemma OnlyLaterTermsDepose(run: seq<State>, events: seq<Event>, i: nat, n: string, t: nat)
    requires Run(Repaired, run, events) && i < |events| && LeadsAt(run[i], n, t) && !LeadsAt(run[i + 1], n, t)
    ensures LaterTermReaches(run[i], events[i], n, t)
  {
    DeposedIff(Repaired, run, events, i, n, t);
    assert StepAt(Repaired, run, events, i);
    hide Run, StepAt, InBounds, Fire;
    if events[i].AppendArrives? && events[i].msg.to == n {
      LeaderHearsNoPeer(run, events, i, events[i].msg, t);
    }
  }

  /** No message of a leader's own term comes from another node. */
  lemma LeaderHearsNoPeer(run: seq<State>, events: seq<Event>, i: nat, a: Append, t: nat)
    requires Run(Repaired, run, events) && i < |run| && LeadsAt(run[i], a.to, t) && a in run[i].appends
    ensures a.req.term != t
  {
    RunLeader(run, events, i, a.to, t);
    RunInv(run, events, i);
    hide Run;
    assert AppendOk(run[i], a);
  }

  /** D2: as written a late answer of term 2 to a request of term 1 deposes a leader of term 5. */
  lemma StaleReplyDeposes(s: NodeState, peers: seq<string>, peer: string)
    requires s.role == Leader && s.term == 5 && -1 <= s.commit && -1 <= s.applied
    ensures var t := AppendReply(AsWritten, s, peers, peer, AppendReq(1, "a", -1, -1, [], -1), AppendRep(2, false));
            t.role == Follower && t.term == 2
  {
  }

  // ----- a timer expires -----

  /** A timer acts exactly on a node that does not lead and is in the term in which the timer was set. */
  lemma TimerActsIff(mode: Mode, s: State, n: string, timer: nat)
    ensures Enabled(mode, s, TimeoutFires(n, timer))
       <==> n in s.nodes && n in s.peers && s.nodes[n].role != Leader && s.nodes[n].term == timer
  {
  }

  /** Then the node stands in the next term, in memory and on disk, and asks every peer for its vote
      with the end of its log. */
  lemma TimerStands(mode: Mode, s: State, n: string, timer: nat)
    requires Enabled(mode, s, TimeoutFires(n, timer)) && CallsNumbered(s)
    ensures var t, st := Fire(mode, s, TimeoutFires(n, timer)), s.nodes[n];
            && t.nodes == s.nodes[n := st.(role := Candidate, term := timer + 1, vote := n, votes := 1,
                                           disk := Disk(timer + 1, n, st.disk.log))]
            && (forall p | p in s.peers[n] ::
                  var id := CallId(n, timer + 1, p, s.candidacies);
                  && id !in s.calls && id in t.calls && t.calls[id].reply == None && !t.calls[id].delivered
                  && t.calls[id].req.term == timer + 1 && t.calls[id].req.candidate == n
                  && SentWith(t.calls[id].req, st.log))
            && (forall id | id in s.calls :: id in t.calls && t.calls[id] == s.calls[id])
  {
    forall p | p in s.peers[n] ensures CallId(n, timer + 1, p, s.candidacies) !in s.calls {}
  }

  /** A heartbeat sends every peer the log from its next index on, with the entry before it and the
      commit index, and changes nothing else. */
  lemma BeatSends(mode: Mode, s: State, n: string)
    requires Enabled(mode, s, HeartbeatFires(n))
    ensures var t, st := Fire(mode, s, HeartbeatFires(n)), s.nodes[n];
            && t == s.(appends := t.appends) && s.appends <= t.appends
            && forall p | p in s.peers[n] && 0 <= Get(st.next, p) ::
                 var next := Get(st.next, p);
                 && next <= |st.log|
                 && Append(p, AppendReq(st.term, n, next - 1, if next == 0 then -1 else st.log[next - 1].term,
                                        st.log[next..], st.commit)) in t.appends
  {
  }

  // ----- an answer reaches a candidate -----

  lemma AnswerCarriesTerm(mode: Mode, s: State, id: CallId)
    requires Enabled(mode, s, VoteArrives(id))
    ensures var t := Fire(mode, s, VoteArrives(id));
            && id in t.calls && t.calls[id].reply.Some? && id.voter in t.nodes && t.calls[id].req == s.calls[id].req
            && t.calls[id].reply.value.term == t.nodes[id.voter].term >= t.calls[id].req.term
  {
    VoterAfter(mode, s.nodes[id.voter], s.calls[id].req);
    hide RequestVote;
  }

  lemma DeliveryTeaches(mode: Mode, s: State, id: CallId)
    requires Enabled(mode, s, VoteReplyArrives(id)) && s.nodes[id.candidate].role == Candidate
    requires s.nodes[id.candidate].term == s.calls[id].req.term <= s.calls[id].reply.value.term
    ensures var t := Fire(mode, s, VoteReplyArrives(id));
            id.candidate in t.nodes && t.nodes[id.candidate].term >= s.calls[id].reply.value.term
  {
    var call := s.calls[id];
    VoteReplyTeachesIff(mode, s.nodes[id.candidate], s.peers[id.candidate], call.req, call.reply.value);
    hide VoteReply;
  }

  /** A candidate that is delivered an answer while it still waits in the term of its request is in
      the voter's term afterwards, or in a later one. */
  lemma AnswerTeaches(mode: Mode, run: seq<State>, events: seq<Event>, i: nat, j: nat, id: CallId)
    requires Run(mode, run, events) && i < j < |events|
    requires events[i] == VoteArrives(id) && events[j] == VoteReplyArrives(id)
    requires id.candidate in run[j].nodes && id in run[j].calls && run[j].nodes[id.candidate].role == Candidate
    requires run[j].nodes[id.candidate].term == run[j].calls[id].req.term
    ensures id.voter in run[i + 1].nodes && id.candidate in run[j + 1].nodes
    ensures run[j + 1].nodes[id.candidate].term >= run[i + 1].nodes[id.voter].term
  {
    assert StepAt(mode, run, events, i) && StepAt(mode, run, events, j);
    AnswerCarriesTerm(mode, run[i], id);
    CallsKept(mode, run, events, i + 1, j);
    hide Fire;
    DeliveryTeaches(mode, run[j], id);
  }

  lemma RequestGranted(s: State, id: CallId)
    requires id in s.calls && CallOk(s, id) && Sorted(s.nodes[id.candidate].log)
    requires s.nodes[id.candidate].role == Candidate && s.nodes[id.candidate].term == id.term
    requires VoteIsFree(s.nodes[id.voter], id.term, id.candidate)
    requires s.nodes[id.voter].log <= s.nodes[id.candidate].log
    ensures RequestVote(Repaired, s.nodes[id.voter], s.calls[id].req).1 == VoteRep(id.term, true)
  {
    var c, v := s.nodes[id.candidate], s.nodes[id.voter];
    FreeVoteGranted(Repaired, v, c, id.candidate);
    VoterAfter(Repaired, v, VoteRequest(c, id.candidate));
    hide RequestVote;
  }

  /** In a repaired run a free vote goes to every standing candidate whose log begins with the voter's. */
  lemma LongerLogGranted(run: seq<State>, events: seq<Event>, i: nat, id: CallId)
    requires Run(Repaired, run, events) && i < |events| && events[i] == VoteArrives(id)
    requires id.candidate in run[i].nodes && id.voter in run[i].nodes
    requires run[i].nodes[id.candidate].role == Candidate && run[i].nodes[id.candidate].term == id.term
    requires VoteIsFree(run[i].nodes[id.voter], id.term, id.candidate)
    requires run[i].nodes[id.voter].log <= run[i].nodes[id.candidate].log
    ensures id in run[i + 1].calls && run[i + 1].calls[id].reply == Some(VoteRep(id.term, true))
  {
    assert StepAt(Repaired, run, events, i);
    RunInv(run, events, i);
    assert CallOk(run[i], id);
    LogTermsOrdered(run, events, i, id.candidate);
    hide Inv, CallOk, RequestVote, Run, Sorted;
    RequestGranted(run[i], id);
  }

  // ----- a candidate counts -----

  /** A candidate has not counted a strict majority yet. */
  ghost predicate Waits(st: NodeState, peers: seq<string>) {
    peers != [] && st.role == Candidate ==> st.votes * 2 <= |peers| + 1
  }

  ghost predicate StillWaits(s: State) {
    forall n | n in s.nodes && n in s.peers :: Waits(s.nodes[n], s.peers[n])
  }

  lemma VotingWaits(mode: Mode, st: NodeState, peers: seq<string>, req: VoteReq, rep: VoteRep)
    requires Waits(st, peers)
    ensures Waits(RequestVote(mode, st, req).0, peers) && Waits(VoteReply(mode, st, peers, req, rep), peers)
  {
  }

  lemma HearingWaits(mode: Mode, st: NodeState, peers: seq<string>, req: AppendReq)
    requires Waits(st, peers) && InBounds(mode, st, req)
    ensures Waits(AppendEntries(mode, st, req).0, peers)
  {
    FollowerAfter(mode, st, req);
    hide AppendEntries;
  }

  lemma AnsweredWaits(mode: Mode, st: NodeState, peers: seq<string>, from: string, req: AppendReq, rep: AppendRep)
    requires Waits(st, peers) && -1 <= st.commit && -1 <= st.applied
    ensures Waits(AppendReply(mode, st, peers, from, req, rep), peers)
  {
    hide AdvanceBelow;
  }

  lemma MessageStillWaits(mode: Mode, s: State, ev: Event, n: string)
    requires Enabled(mode, s, ev) && n in s.nodes && n in s.peers && Waits(s.nodes[n], s.peers[n])
    requires ev.AppendArrives? || ev.AppendReplyArrives?
    ensures n in Fire(mode, s, ev).nodes && Waits(Fire(mode, s, ev).nodes[n], s.peers[n])
  {
    hide AppendEntries, AppendReply, InBounds;
    var st, peers := s.nodes[n], s.peers[n];
    match ev
    case AppendArrives(a) => if a.to == n { HearingWaits(mode, st, peers, a.req); }
    case AppendReplyArrives(k) => if k.req.leader == n { AnsweredWaits(mode, st, peers, k.from, k.req, k.rep); }
  }

  lemma VoteStillWaits(mode: Mode, s: State, ev: Event, n: string)
    requires Enabled(mode, s, ev) && n in s.nodes && n in s.peers && Waits(s.nodes[n], s.peers[n])
    requires !ev.AppendArrives? && !ev.AppendReplyArrives?
    ensures n in Fire(mode, s, ev).nodes && Waits(Fire(mode, s, ev).nodes[n], s.peers[n])
  {
    hide RequestVote, VoteReply;
    var st, peers := s.nodes[n], s.peers[n];
    match ev
    case VoteArrives(id) => VotingWaits(mode, st, peers, s.calls[id].req, VoteRep(0, false));
    case VoteReplyArrives(id) => VotingWaits(mode, st, peers, s.calls[id].req, s.calls[id].reply.value);
    case _ =>
  }

  lemma StepStillWaits(mode: Mode, s: State, ev: Event)
    requires Enabled(mode, s, ev) && StillWaits(s)
    ensures StillWaits(Fire(mode, s, ev))
  {
    var s' := Fire(mode, s, ev);
    forall n | n in s'.nodes && n in s'.peers ensures Waits(s'.nodes[n], s'.peers[n]) {
      if ev.AppendArrives? || ev.AppendReplyArrives? {
        MessageStillWaits(mode, s, ev, n);
      } else {
        VoteStillWaits(mode, s, ev, n);
      }
    }
  }

  /** In every run of either mode a candidate with a strict majority of grants counted leads already. */
  lemma {:induction false} MajorityLeads(mode: Mode, run: seq<State>, events: seq<Event>, i: nat)
    requires Run(mode, run, events) && i < |run|
    ensures StillWaits(run[i])
  {
    if i > 0 {
      MajorityLeads(mode, run, events, i - 1);
      assert StepAt(mode, run, events, i - 1);
      StepStillWaits(mode, run[i - 1], events[i - 1]);
    }
  }

  // ----- a message reaches a follower -----

  /** In a repaired run a node that takes a message has committed as far as the leader had, and
      pushed it, and says so. */
  lemma TakenCommits(run: seq<State>, events: seq<Event>, i: nat, a: Append)
    requires Run(Repaired, run, events) && i < |events| && events[i] == AppendArrives(a)
    ensures a.to in run[i].nodes && a.to in run[i + 1].nodes
    ensures var s, t := run[i].nodes[a.to], run[i + 1].nodes[a.to];
            && Ack(a.to, a.req, AppendRep(Max(s.term, a.req.term), FollowsCheck(s, a.req))) in run[i + 1].acks
            && (FollowsCheck(s, a.req) ==> t.commit == Max(s.commit, a.req.commit) && PushedAll(t))
  {
    assert StepAt(Repaired, run, events, i);
    RunApplies(run, events, i, a.to);
    CommittedPrefixStays(run, events, i, a.to);
    var s := run[i].nodes[a.to];
    FollowerAfter(Repaired, s, a.req);
    if FollowsCheck(s, a.req) { FollowerCommits(Repaired, s, a.req); }
    hide AppendEntries, Run;
  }
}
