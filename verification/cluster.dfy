/** A cluster of nodes and the network between them. A step runs one handler of one node from
    start to end.

    A RequestVote call is answered at most once and its answer is delivered at most once.
    AppendEntries requests and answers may be delivered late, in any order, repeatedly or never. */
module Cluster {
  import opened RaftTypes
  import opened Commitment
  import opened Handlers

  /** One call to one peer in one candidacy. As written a node can stand twice in one term (D2),
      so candidacies are numbered over the whole run. */
  datatype CallId = CallId(candidate: string, term: nat, voter: string, candidacy: nat)

  /** `voterLog` is history: the voter's log when it answered. */
  datatype Call = Call(req: VoteReq, reply: Option<VoteRep>, voterLog: seq<Entry>, delivered: bool)

  datatype Append = Append(to: string, req: AppendReq)

  datatype Ack = Ack(from: string, req: AppendReq, rep: AppendRep)

  /** History of one term's leader: who voted for it, its log when it won, and its log since. */
  datatype Reign = Reign(leader: string, quorum: set<string>, base: seq<Entry>, log: seq<Entry>)

  /** `candidacies` counts the candidacies so far; `stood` gives the last one of a node in a term.
      Both and `reigns` are history: no handler reads them. */
  datatype State = State(
    peers: map<string, seq<string>>,
    nodes: map<string, NodeState>,
    calls: map<CallId, Call>,
    appends: set<Append>,
    acks: set<Ack>,
    candidacies: nat,
    stood: map<(string, nat), nat>,
    reigns: map<nat, Reign>)

  datatype Event =
    | TimeoutFires(node: string, timer: nat)
    | HeartbeatFires(node: string)
    | VoteArrives(id: CallId)
    | VoteReplyArrives(id: CallId)
    | AppendArrives(msg: Append)
    | AppendReplyArrives(ack: Ack)
    | ClientSubmits(node: string, command: Command)
    | Restarts(node: string)

  function PutNode(s: State, n: string, st: NodeState): (after: State) {
    s.(nodes := s.nodes[n := st])
  }

  predicate Granted(call: Call) { call.reply.Some? && call.reply.value.granted }

  /** The voters whose grants the candidate has counted, itself included. */
  function Tally(calls: map<CallId, Call>, c: string, term: nat): (voters: set<string>) {
    {c} + set id | id in calls && id.candidate == c && id.term == term && calls[id].delivered
      && Granted(calls[id]) :: id.voter
  }

  /** The calls a candidate opens, one for each peer. */
  function NewCalls(peers: seq<string>, n: string, st: NodeState, candidacy: nat): (m: map<CallId, Call>)
    ensures forall id :: id in m <==>
              id.candidate == n && id.term == st.term && id.voter in peers && id.candidacy == candidacy
    ensures forall id | id in m :: m[id] == Call(VoteRequest(st, n), None, [], false)
  {
    if peers == [] then map[]
    else
      assert peers == [peers[0]] + peers[1..];
      NewCalls(peers[1..], n, st, candidacy)
        [CallId(n, st.term, peers[0], candidacy) := Call(VoteRequest(st, n), None, [], false)]
  }

  predicate Enabled(mode: Mode, s: State, ev: Event) {
    match ev
    case TimeoutFires(n, timer) => n in s.nodes && n in s.peers && MayStand(s.nodes[n], timer)
    case HeartbeatFires(n) => n in s.nodes && n in s.peers && MayHeartbeat(s.nodes[n], s.peers[n])
    case VoteArrives(id) => id in s.calls && s.calls[id].reply.None? && id.voter in s.nodes
    case VoteReplyArrives(id) =>
      && id in s.calls && s.calls[id].reply.Some? && !s.calls[id].delivered
      && id.candidate in s.nodes && id.candidate in s.peers
    case AppendArrives(a) => a in s.appends && a.to in s.nodes && InBounds(mode, s.nodes[a.to], a.req)
    case AppendReplyArrives(k) =>
      && k in s.acks && k.req.leader in s.nodes && k.req.leader in s.peers
      && -1 <= s.nodes[k.req.leader].commit && -1 <= s.nodes[k.req.leader].applied
    case ClientSubmits(n, _) => n in s.nodes && s.nodes[n].role == Leader
    case Restarts(n) => n in s.nodes && n in s.peers
  }

  function Stands(s: State, n: string): (after: State)
    requires n in s.nodes && n in s.peers
  {
    var st := Stand(s.nodes[n], n);
    PutNode(s, n, st).(calls := s.calls + NewCalls(s.peers[n], n, st, s.candidacies),
                       stood := s.stood[(n, st.term) := s.candidacies], candidacies := s.candidacies + 1)
  }

  function Beats(s: State, n: string): (after: State)
    requires n in s.nodes && n in s.peers && MayHeartbeat(s.nodes[n], s.peers[n])
  {
    s.(appends := s.appends + set p | p in s.peers[n] :: Append(p, Heartbeat(s.nodes[n], n, p)))
  }

  function Votes(mode: Mode, s: State, id: CallId): (after: State)
    requires id in s.calls && id.voter in s.nodes
  {
    var call := s.calls[id];
    var (st, rep) := RequestVote(mode, s.nodes[id.voter], call.req);
    PutNode(s, id.voter, st).(calls := s.calls[id := call.(reply := Some(rep), voterLog := st.log)])
  }

  function Crowned(s: State, n: string): (after: State)
    requires n in s.nodes
  {
    var st := s.nodes[n];
    s.(reigns := s.reigns[st.term := Reign(n, Tally(s.calls, n, st.term), st.log, st.log)])
  }

  function CountsVote(mode: Mode, s: State, id: CallId): (after: State)
    requires Enabled(mode, s, VoteReplyArrives(id))
  {
    var call := s.calls[id];
    var before := s.nodes[id.candidate];
    var st := VoteReply(mode, before, s.peers[id.candidate], call.req, call.reply.value);
    var t := PutNode(s, id.candidate, st).(calls := s.calls[id := call.(delivered := true)]);
    if before.role != Leader && st.role == Leader then Crowned(t, id.candidate) else t
  }

  function Appends(mode: Mode, s: State, a: Append): (after: State)
    requires a.to in s.nodes && InBounds(mode, s.nodes[a.to], a.req)
  {
    var (st, rep) := AppendEntries(mode, s.nodes[a.to], a.req);
    PutNode(s, a.to, st).(acks := s.acks + {Ack(a.to, a.req, rep)})
  }

  function Acknowledged(mode: Mode, s: State, k: Ack): (after: State)
    requires Enabled(mode, s, AppendReplyArrives(k))
  {
    var n := k.req.leader;
    PutNode(s, n, AppendReply(mode, s.nodes[n], s.peers[n], k.from, k.req, k.rep))
  }

  function Submits(s: State, n: string, c: Command): (after: State)
    requires n in s.nodes
  {
    var st := s.nodes[n];
    var st' := Submit(st, Entry(st.term, c));
    var t := PutNode(s, n, st');
    if st.term in s.reigns then t.(reigns := s.reigns[st.term := s.reigns[st.term].(log := st'.log)]) else t
  }

  function Fire(mode: Mode, s: State, ev: Event): (after: State)
    requires Enabled(mode, s, ev)
  {
    match ev
    case TimeoutFires(n, _) => Stands(s, n)
    case HeartbeatFires(n) => Beats(s, n)
    case VoteArrives(id) => Votes(mode, s, id)
    case VoteReplyArrives(id) => CountsVote(mode, s, id)
    case AppendArrives(a) => Appends(mode, s, a)
    case AppendReplyArrives(k) => Acknowledged(mode, s, k)
    case ClientSubmits(n, c) => Submits(s, n, c)
    case Restarts(n) => PutNode(s, n, Restart(mode, s.nodes[n], s.peers[n]))
  }

  ghost predicate PeersOk(n: string, peers: seq<string>, servers: set<string>) {
    Distinct(peers) && (set p | p in peers) == servers - {n}
  }

  /** Every node lists every other node once, and no node has the empty name. */
  ghost predicate ConfigOk(s: State) {
    && s.peers.Keys == s.nodes.Keys && "" !in s.nodes
    && forall n | n in s.peers :: PeersOk(n, s.peers[n], s.nodes.Keys)
  }

  ghost predicate Init(s: State) {
    && ConfigOk(s)
    && (forall n | n in s.nodes :: s.nodes[n] == InitialNode(s.peers[n]))
    && s.calls == map[] && s.appends == {} && s.acks == {} && s.stood == map[] && s.reigns == map[]
  }

  ghost predicate Step(mode: Mode, s: State, ev: Event, s': State) {
    Enabled(mode, s, ev) && s' == Fire(mode, s, ev)
  }

  ghost predicate StepAt(mode: Mode, run: seq<State>, events: seq<Event>, i: nat)
    requires i < |events| < |run|
  {
    Step(mode, run[i], events[i], run[i + 1])
  }

  /** Each state follows from the one before by one event. */
  ghost predicate Run(mode: Mode, run: seq<State>, events: seq<Event>) {
    && |run| == |events| + 1 && Init(run[0])
    && forall i: nat | i < |events| :: StepAt(mode, run, events, i)
  }
}
