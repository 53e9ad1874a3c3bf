/** D4 in a run of three nodes: match indices that D5 took past the end of the log, kept over a new
    election, commit an entry that only the new leader holds. */
module StaleIndices {
  import opened RaftTypes
  import opened LogMerge
  import opened Commitment
  import opened Handlers
  import opened Cluster
  import opened Safety
  import opened Scenarios

  /** The leader of term `t`, with what it believes of its peers `b` and `c`. */
  ghost predicate Leads(st: NodeState, t: nat, log: seq<Entry>, commit: int) {
    st.role == Leader && st.term == t && st.log == log && st.commit == commit && -1 <= st.applied
  }

  ghost predicate Believes(st: NodeState, p: string, next: int, matched: int) {
    Get(st.next, p) == next && Get(st.matched, p) == matched
  }

  // ----- single steps -----

  lemma SuccessMatches(st: NodeState, b: string, c: string, from: string, req: AppendReq)
    requires st.role == Leader && req.term == st.term && -1 <= st.commit && -1 <= st.applied
    ensures AppendReply(AsWritten, st, [b, c], from, req, AppendRep(st.term, true))
         == AdvanceCommit(Matched(st, from, Get(st.next, from) + |req.entries|), [b, c])
  {
  }

  lemma SuccessBelieves(st: NodeState, b: string, c: string, from: string, req: AppendReq, p: string)
    requires st.role == Leader && req.term == st.term && -1 <= st.commit && -1 <= st.applied
    ensures var r := AppendReply(AsWritten, st, [b, c], from, req, AppendRep(st.term, true));
            var n := Get(st.next, from) + |req.entries|;
            if p == from then Believes(r, p, n, n - 1) else Believes(r, p, Get(st.next, p), Get(st.matched, p))
  {
    var n := Get(st.next, from) + |req.entries|;
    SuccessMatches(st, b, c, from, req);
    hide AdvanceCommit, AppendReply;
  }

  lemma SuccessLeads(st: NodeState, b: string, c: string, from: string, req: AppendReq)
    requires st.role == Leader && req.term == st.term
    requires -1 <= st.commit < |st.log| && -1 <= st.applied && st.log != [] && st.log[|st.log| - 1].term == st.term
    requires Get(Matched(st, from, Get(st.next, from) + |req.entries|).matched, b) >= |st.log| - 1
    ensures Leads(AppendReply(AsWritten, st, [b, c], from, req, AppendRep(st.term, true)), st.term, st.log,
            |st.log| - 1)
  {
    SuccessMatches(st, b, c, from, req);
    hide AdvanceCommit, AppendReply;
    LastCommits(Matched(st, from, Get(st.next, from) + |req.entries|), b, c);
  }

  /** A success moves the leader's beliefs about its sender by the number of entries sent, and
      commits the whole log when `b` is then believed to hold it. */
  lemma SuccessCounts(st: NodeState, b: string, c: string, from: string, req: AppendReq)
    requires b != c && (from == b || from == c) && st.role == Leader && req.term == st.term
    requires -1 <= st.commit < |st.log| && -1 <= st.applied && st.log != [] && st.log[|st.log| - 1].term == st.term
    ensures var r := AppendReply(AsWritten, st, [b, c], from, req, AppendRep(st.term, true));
            var n := Get(st.next, from) + |req.entries|;
            && Believes(r, from, n, n - 1)
            && (from != b ==> Believes(r, b, Get(st.next, b), Get(st.matched, b)))
            && (from != c ==> Believes(r, c, Get(st.next, c), Get(st.matched, c)))
            && (Get(r.matched, b) >= |st.log| - 1 ==> Leads(r, st.term, st.log, |st.log| - 1))
  {
    var n := Get(st.next, from) + |req.entries|;
    hide AppendReply, Leads;
    SuccessBelieves(st, b, c, from, req, b);
    SuccessBelieves(st, b, c, from, req, c);
    if Get(Matched(st, from, n).matched, b) >= |st.log| - 1 { SuccessLeads(st, b, c, from, req); }
  }

  lemma RefusalSteps(st: NodeState, b: string, c: string, req: AppendReq)
    requires b != c && st.role == Leader && req.term == st.term && -1 <= st.commit && -1 <= st.applied
    ensures var r := AppendReply(AsWritten, st, [b, c], b, req, AppendRep(st.term, false));
            && Leads(r, st.term, st.log, st.commit)
            && Believes(r, b, Get(st.next, b) - 1, Get(st.matched, b))
            && Believes(r, c, Get(st.next, c), Get(st.matched, c))
  {
  }

  // ----- the first reign -----

  /** The acknowledgement of the first entry. */
  function FirstAck(a: string, b: string, cmd: Command): (k: Ack) {
    Ack(b, FirstMessage(a, cmd), AppendRep(1, true))
  }

  /** `a` leads term 1 with the given log, commit index and indices of `b`; `b` holds one entry, and its
      acknowledgement of it can arrive at any time. */
  ghost predicate FirstReign(s: State, a: string, b: string, c: string, cmd: Command,
                             log: seq<Entry>, commit: int, next: int, matched: int) {
    && Cfg(s, a, b, c) && s.candidacies == 1 && FirstAck(a, b, cmd) in s.acks
    && Leads(s.nodes[a], 1, log, commit) && Believes(s.nodes[a], b, next, matched) && Believes(s.nodes[a], c, 0, -1)
    && s.nodes[b].term == 1 && s.nodes[b].role == Follower && s.nodes[b].log == [Entry(1, cmd)]
    && -1 <= s.nodes[b].applied && s.nodes[c] == InitialNode([a, b])
  }

  lemma HeldIsReign(s: State, a: string, b: string, c: string, cmd: Command)
    requires EntryHeld(s, a, b, c, cmd)
    ensures FirstReign(s, a, b, c, cmd, [Entry(1, cmd)], -1, 0, -1)
  {
    FreshPromotes(b, c, a);
    assert [b, c][0] in [b, c] && [b, c][1] in [b, c];
  }

  lemma SuccessKeeps(s: State, after: State, a: string, b: string, c: string, cmd: Command,
                     log: seq<Entry>, commit: int, next: int, matched: int)
    requires FirstReign(s, a, b, c, cmd, log, commit, next, matched) && Answers(s, after, a, FirstAck(a, b, cmd))
    requires -1 <= commit < |log| && log != [] && log[|log| - 1].term == 1 && next >= |log| - 1
    ensures FirstReign(after, a, b, c, cmd, log, |log| - 1, next + 1, next) && after.acks == s.acks
  {
    SuccessCounts(s.nodes[a], b, c, b, FirstMessage(a, cmd));
    hide AppendReply;
  }

  /** Each time the acknowledgement arrives the leader takes `b` to hold one entry more. */
  lemma SuccessArrives(s: State, a: string, b: string, c: string, cmd: Command,
                       log: seq<Entry>, commit: int, next: int, matched: int)
    requires Reaches(false, s) && FirstReign(s, a, b, c, cmd, log, commit, next, matched)
    requires -1 <= commit < |log| && log != [] && log[|log| - 1].term == 1 && next >= |log| - 1
    ensures exists after :: Reaches(false, after) && after.acks == s.acks
              && FirstReign(after, a, b, c, cmd, log, |log| - 1, next + 1, next)
  {
    hide Reaches;
    Answered(false, s, a, FirstAck(a, b, cmd));
    var after :| Reaches(false, after) && Answers(s, after, a, FirstAck(a, b, cmd));
    SuccessKeeps(s, after, a, b, c, cmd, log, commit, next, matched);
  }

  /** The one acknowledgement of the first entry arrives twice. */
  lemma ArrivesTwice(a: string, b: string, c: string, cmd: Command)
    requires Three(a, b, c)
    ensures exists s :: Reaches(false, s) && FirstReign(s, a, b, c, cmd, [Entry(1, cmd)], 0, 2, 1)
  {
    hide Reaches, FirstReign;
    var log := [Entry(1, cmd)];
    FirstEntryAcked(false, a, b, c, cmd);
    var s0 :| Reaches(false, s0) && EntryHeld(s0, a, b, c, cmd);
    HeldIsReign(s0, a, b, c, cmd);
    SuccessArrives(s0, a, b, c, cmd, log, -1, 0, -1);
    var s1 :| Reaches(false, s1) && FirstReign(s1, a, b, c, cmd, log, 0, 1, 0);
    SuccessArrives(s1, a, b, c, cmd, log, 0, 1, 0);
  }

  /** The heartbeat after a second entry, and its refusal by `b`. */
  function TooFar(a: string): (req: AppendReq) {
    AppendReq(1, a, 1, 1, [], 0)
  }

  function Refusal(a: string, b: string): (k: Ack) {
    Ack(b, TooFar(a), AppendRep(1, false))
  }

  lemma SecondEntry(s: State, after: State, a: string, b: string, c: string, cmd: Command)
    requires FirstReign(s, a, b, c, cmd, [Entry(1, cmd)], 0, 2, 1) && Records(s, after, a, cmd)
    ensures FirstReign(after, a, b, c, cmd, [Entry(1, cmd), Entry(1, cmd)], 0, 2, 1)
  {
  }

  lemma TooFarSent(s: State, after: State, a: string, b: string, c: string, cmd: Command)
    requires FirstReign(s, a, b, c, cmd, [Entry(1, cmd), Entry(1, cmd)], 0, 2, 1) && Sends(s, after, a, b)
    ensures FirstReign(after, a, b, c, cmd, [Entry(1, cmd), Entry(1, cmd)], 0, 2, 1)
    ensures Append(b, TooFar(a)) in after.appends
  {
  }

  lemma SecondEntrySent(a: string, b: string, c: string, cmd: Command)
    requires Three(a, b, c)
    ensures exists s :: Reaches(false, s) && Append(b, TooFar(a)) in s.appends
              && FirstReign(s, a, b, c, cmd, [Entry(1, cmd), Entry(1, cmd)], 0, 2, 1)
  {
    hide Reaches, Records;
    ArrivesTwice(a, b, c, cmd);
    var s0 :| Reaches(false, s0) && FirstReign(s0, a, b, c, cmd, [Entry(1, cmd)], 0, 2, 1);
    Submitted(false, s0, a, cmd);
    var s1 :| Reaches(false, s1) && Records(s0, s1, a, cmd);
    SecondEntry(s0, s1, a, b, c, cmd);
    assert [b, c][0] in [b, c];
    Beaten(false, s1, a, b);
    var s2 :| Reaches(false, s2) && Sends(s1, s2, a, b);
    TooFarSent(s1, s2, a, b, c, cmd);
  }

  lemma TooFarRefused(s: State, after: State, a: string, b: string, c: string, cmd: Command)
    requires FirstReign(s, a, b, c, cmd, [Entry(1, cmd), Entry(1, cmd)], 0, 2, 1) && Hears(s, after, b, TooFar(a))
    ensures FirstReign(after, a, b, c, cmd, [Entry(1, cmd), Entry(1, cmd)], 0, 2, 1) && Refusal(a, b) in after.acks
  {
  }

  /** The leader takes a second entry, and the next heartbeat is refused by `b`. */
  lemma Refused(a: string, b: string, c: string, cmd: Command)
    requires Three(a, b, c)
    ensures exists s :: Reaches(false, s) && Refusal(a, b) in s.acks
              && FirstReign(s, a, b, c, cmd, [Entry(1, cmd), Entry(1, cmd)], 0, 2, 1)
  {
    hide Reaches;
    SecondEntrySent(a, b, c, cmd);
    var s0 :| Reaches(false, s0) && Append(b, TooFar(a)) in s0.appends
              && FirstReign(s0, a, b, c, cmd, [Entry(1, cmd), Entry(1, cmd)], 0, 2, 1);
    Delivered(false, s0, b, TooFar(a));
    var s1 :| Reaches(false, s1) && Hears(s0, s1, b, TooFar(a));
    TooFarRefused(s0, s1, a, b, c, cmd);
  }

  lemma RefusalKeeps(s: State, after: State, a: string, b: string, c: string, cmd: Command,
                     log: seq<Entry>, commit: int, next: int, matched: int)
    requires FirstReign(s, a, b, c, cmd, log, commit, next, matched) && Answers(s, after, a, Refusal(a, b))
    ensures FirstReign(after, a, b, c, cmd, log, commit, next - 1, matched)
  {
    RefusalSteps(s.nodes[a], b, c, TooFar(a));
    hide AppendReply;
  }

  /** Then the acknowledgement arrives once more, and after it the refusal: the leader believes that
      `b` holds three entries, and its next heartbeat is still well defined. */
  lemma Overshot(a: string, b: string, c: string, cmd: Command)
    requires Three(a, b, c)
    ensures exists s :: Reaches(false, s) && FirstReign(s, a, b, c, cmd, [Entry(1, cmd), Entry(1, cmd)], 1, 2, 2)
  {
    hide Reaches;
    var log := [Entry(1, cmd), Entry(1, cmd)];
    Refused(a, b, c, cmd);
    var s0 :| Reaches(false, s0) && Refusal(a, b) in s0.acks && FirstReign(s0, a, b, c, cmd, log, 0, 2, 1);
    SuccessArrives(s0, a, b, c, cmd, log, 0, 2, 1);
    var s1 :| Reaches(false, s1) && s1.acks == s0.acks && FirstReign(s1, a, b, c, cmd, log, 1, 3, 2);
    Answered(false, s1, a, Refusal(a, b));
    var s2 :| Reaches(false, s2) && Answers(s1, s2, a, Refusal(a, b));
    RefusalKeeps(s1, s2, a, b, c, cmd, log, 1, 3, 2);
  }

  // ----- the second reign -----

  ghost predicate Waits(st: NodeState) {
    st.term == 2 && st.log == [] && st.commit == st.applied == -1
  }

  /** `a` is no longer leader and keeps its indices; `c` is waiting for votes. */
  ghost predicate SteppedDown(s: State, a: string, b: string, c: string, cmd: Command) {
    && Cfg(s, a, b, c) && s.nodes[a].role == Follower && s.nodes[a].term == 2
    && s.nodes[a].log == [Entry(1, cmd), Entry(1, cmd)] && s.nodes[a].commit == 1 && -1 <= s.nodes[a].applied
    && Believes(s.nodes[a], b, 2, 2) && Believes(s.nodes[a], c, 0, -1)
    && s.nodes[b].term == 1 && s.nodes[b].log == [Entry(1, cmd)] && Waits(s.nodes[c])
  }

  lemma VoteStepsDown(s: State, s1: State, after: State, a: string, b: string, c: string, cmd: Command)
    requires FirstReign(s, a, b, c, cmd, [Entry(1, cmd), Entry(1, cmd)], 1, 2, 2)
    requires AsksAgain(s, s1, c, a) && Promises(s1, after, CallId(c, 2, a, s.candidacies + 1))
    ensures SteppedDown(after, a, b, c, cmd)
  {
  }

  /** `c` stands in term 2 and gets the leader's vote, so the leader steps down. */
  lemma LeaderStepsDown(a: string, b: string, c: string, cmd: Command)
    requires Three(a, b, c)
    ensures exists s :: Reaches(false, s) && SteppedDown(s, a, b, c, cmd)
  {
    hide Reaches, SteppedDown;
    Overshot(a, b, c, cmd);
    var s0 :| Reaches(false, s0) && FirstReign(s0, a, b, c, cmd, [Entry(1, cmd), Entry(1, cmd)], 1, 2, 2);
    assert [a, b][0] in [a, b];
    StandsTwice(s0, c, a);
    var s1 :| Reaches(false, s1) && AsksAgain(s0, s1, c, a);
    var id := CallId(c, 2, a, s0.candidacies + 1);
    Grant(false, s1, id, -1, -1);
    var s2 :| Reaches(false, s2) && Promises(s1, s2, id);
    VoteStepsDown(s0, s1, s2, a, b, c, cmd);
  }

  /** `a` leads term 3 and still believes that `b` matches index 2. */
  ghost predicate SecondReign(s: State, a: string, b: string, c: string, cmd: Command, log: seq<Entry>) {
    && Cfg(s, a, b, c) && Leads(s.nodes[a], 3, log, 1)
    && Believes(s.nodes[a], b, 2, 2) && Believes(s.nodes[a], c, 0, -1)
    && s.nodes[b].log == [Entry(1, cmd)] && Waits(s.nodes[c])
  }

  lemma VoteLeads(s: State, s1: State, s2: State, after: State, a: string, b: string, c: string, cmd: Command)
    requires SteppedDown(s, a, b, c, cmd) && Asks(s, s1, a, b)
    requires Promises(s1, s2, CallId(a, 3, b, s.candidacies)) && Elects(s2, after, CallId(a, 3, b, s.candidacies))
    ensures SecondReign(after, a, b, c, cmd, [Entry(1, cmd), Entry(1, cmd)])
  {
  }

  /** It is elected again, in term 3 and by `b`, and keeps its indices. */
  lemma LeadsAgain(a: string, b: string, c: string, cmd: Command)
    requires Three(a, b, c)
    ensures exists s :: Reaches(false, s) && SecondReign(s, a, b, c, cmd, [Entry(1, cmd), Entry(1, cmd)])
  {
    hide Reaches, SecondReign;
    LeaderStepsDown(a, b, c, cmd);
    var s0 :| Reaches(false, s0) && SteppedDown(s0, a, b, c, cmd);
    assert [b, c][0] in [b, c];
    var id := CallId(a, 3, b, s0.candidacies);
    TimesOut(false, s0, a, b);
    var s1 :| Reaches(false, s1) && Asks(s0, s1, a, b);
    Grant(false, s1, id, 1, 1);
    var s2 :| Reaches(false, s2) && Promises(s1, s2, id);
    Elected(false, s2, id);
    var s3 :| Reaches(false, s3) && Elects(s2, s3, id);
    VoteLeads(s0, s1, s2, s3, a, b, c, cmd);
  }

  /** The old entries, as the leader of term 3 sends them. */
  function OldEntries(a: string, cmd: Command): (req: AppendReq) {
    AppendReq(3, a, -1, -1, [Entry(1, cmd), Entry(1, cmd)], 1)
  }

  ghost predicate NewEntry(s: State, a: string, b: string, c: string, cmd: Command) {
    && SecondReign(s, a, b, c, cmd, [Entry(1, cmd), Entry(1, cmd), Entry(3, cmd)])
    && Append(c, OldEntries(a, cmd)) in s.appends
  }

  lemma SendThenSubmit(s: State, s1: State, after: State, a: string, b: string, c: string, cmd: Command)
    requires SecondReign(s, a, b, c, cmd, [Entry(1, cmd), Entry(1, cmd)])
    requires Sends(s, s1, a, c) && Records(s1, after, a, cmd)
    ensures NewEntry(after, a, b, c, cmd)
  {
  }

  /** A heartbeat with the old entries goes to `c`; then the leader takes a new one. */
  lemma OldEntriesSent(a: string, b: string, c: string, cmd: Command)
    requires Three(a, b, c)
    ensures exists s :: Reaches(false, s) && NewEntry(s, a, b, c, cmd)
  {
    hide Reaches, NewEntry;
    LeadsAgain(a, b, c, cmd);
    var s0 :| Reaches(false, s0) && SecondReign(s0, a, b, c, cmd, [Entry(1, cmd), Entry(1, cmd)]);
    assert [b, c][1] in [b, c];
    Beaten(false, s0, a, c);
    var s1 :| Reaches(false, s1) && Sends(s0, s1, a, c);
    Submitted(false, s1, a, cmd);
    var s2 :| Reaches(false, s2) && Records(s1, s2, a, cmd);
    SendThenSubmit(s0, s1, s2, a, b, c, cmd);
  }

  /** `a` leads term 3 and has committed three entries; `b` holds one, and `c` two. */
  ghost predicate CommitsAlone(s: State, a: string, b: string, c: string, cmd: Command) {
    && LeadsAt(s, a, 3) && s.nodes.Keys == {a, b, c}
    && s.nodes[a].commit == 2 && s.nodes[a].log == [Entry(1, cmd), Entry(1, cmd), Entry(3, cmd)]
    && |s.nodes[b].log| == 1 && |s.nodes[c].log| == 2
  }

  lemma OldEntriesTaken(s: State, after: State, a: string, b: string, c: string, cmd: Command)
    requires NewEntry(s, a, b, c, cmd) && Hears(s, after, c, OldEntries(a, cmd))
    ensures Cfg(after, a, b, c) && after.nodes[a] == s.nodes[a] && after.nodes[b] == s.nodes[b]
    ensures |after.nodes[c].log| == 2 && Ack(c, OldEntries(a, cmd), AppendRep(3, true)) in after.acks
  {
  }

  lemma ReplyCommitsAlone(s: State, s1: State, after: State, a: string, b: string, c: string, cmd: Command)
    requires NewEntry(s, a, b, c, cmd) && Hears(s, s1, c, OldEntries(a, cmd))
    requires Answers(s1, after, a, Ack(c, OldEntries(a, cmd), AppendRep(3, true)))
    ensures CommitsAlone(after, a, b, c, cmd)
  {
    OldEntriesTaken(s, s1, a, b, c, cmd);
    SuccessCounts(s1.nodes[a], b, c, c, OldEntries(a, cmd));
    hide AppendReply, AppendEntries;
  }

  /** D4: when `c` acknowledges the old entries, the leader of term 3 commits the new one on the
      strength of the index it kept for `b`, and no other node holds it. */
  lemma KeptIndexCommits(a: string, b: string, c: string, cmd: Command)
    requires Three(a, b, c)
    ensures exists s :: Reaches(false, s) && CommitsAlone(s, a, b, c, cmd)
  {
    hide Reaches, CommitsAlone;
    OldEntriesSent(a, b, c, cmd);
    var s0 :| Reaches(false, s0) && NewEntry(s0, a, b, c, cmd);
    var req := OldEntries(a, cmd);
    Delivered(false, s0, c, req);
    var s1 :| Reaches(false, s1) && Hears(s0, s1, c, req);
    OldEntriesTaken(s0, s1, a, b, c, cmd);
    var k := Ack(c, req, AppendRep(3, true));
    Answered(false, s1, a, k);
    var s2 :| Reaches(false, s2) && Answers(s1, s2, a, k);
    ReplyCommitsAlone(s0, s1, s2, a, b, c, cmd);
  }
}
