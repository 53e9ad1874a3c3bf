/** What the network of the model never does: no vote call is lost, replaced or answered twice,
    in either mode and although a node can stand twice in one term. */
module Network {
  import opened RaftTypes
  import opened Handlers
  import opened Cluster

  ghost predicate CallsNumbered(s: State) {
    forall id | id in s.calls :: id.candidacy < s.candidacies
  }

  /** An answer stays the answer, and a delivery is not taken back. */
  ghost predicate CallGrows(a: Call, b: Call) {
    && b.req == a.req
    && (a.reply.Some? ==> b.reply == a.reply && b.voterLog == a.voterLog)
    && (a.delivered ==> b.delivered)
  }

  ghost predicate CallsGrow(s: State, s': State) {
    forall id | id in s.calls :: id in s'.calls && CallGrows(s.calls[id], s'.calls[id])
  }

  lemma StandsCalls(s: State, n: string)
    requires n in s.nodes && n in s.peers && CallsNumbered(s)
    ensures CallsNumbered(Stands(s, n)) && CallsGrow(s, Stands(s, n))
  {
  }

  lemma AnswerCalls(mode: Mode, s: State, id: CallId)
    requires CallsNumbered(s) && Enabled(mode, s, VoteArrives(id))
    ensures CallsNumbered(Votes(mode, s, id)) && CallsGrow(s, Votes(mode, s, id))
  {
  }

  lemma DeliverCalls(mode: Mode, s: State, id: CallId)
    requires CallsNumbered(s) && Enabled(mode, s, VoteReplyArrives(id))
    ensures CallsNumbered(CountsVote(mode, s, id)) && CallsGrow(s, CountsVote(mode, s, id))
  {
  }

  lemma OtherCalls(mode: Mode, s: State, ev: Event)
    requires Enabled(mode, s, ev) && !ev.TimeoutFires? && !ev.VoteArrives? && !ev.VoteReplyArrives?
    ensures Fire(mode, s, ev).calls == s.calls && Fire(mode, s, ev).candidacies == s.candidacies
  {
  }

  lemma StepCalls(mode: Mode, s: State, ev: Event)
    requires Enabled(mode, s, ev) && CallsNumbered(s)
    ensures CallsNumbered(Fire(mode, s, ev)) && CallsGrow(s, Fire(mode, s, ev))
  {
    match ev
    case TimeoutFires(n, _) => StandsCalls(s, n);
    case VoteArrives(id) => AnswerCalls(mode, s, id);
    case VoteReplyArrives(id) => DeliverCalls(mode, s, id);
    case _ => OtherCalls(mode, s, ev);
  }

  lemma {:induction false} RunNumbered(mode: Mode, run: seq<State>, events: seq<Event>, i: nat)
    requires Run(mode, run, events) && i < |run|
    ensures CallsNumbered(run[i])
  {
    if i > 0 {
      RunNumbered(mode, run, events, i - 1);
      assert StepAt(mode, run, events, i - 1);
      StepCalls(mode, run[i - 1], events[i - 1]);
    }
  }

  /** Every call opened in a run of either mode stays, with its request, its one answer and its
      one delivery. */
  lemma {:induction false} CallsKept(mode: Mode, run: seq<State>, events: seq<Event>, i: nat, j: nat)
    requires Run(mode, run, events) && i <= j < |run|
    ensures CallsGrow(run[i], run[j])
    decreases j - i
  {
    if i < j {
      CallsKept(mode, run, events, i, j - 1);
      RunNumbered(mode, run, events, j - 1);
      assert StepAt(mode, run, events, j - 1);
      StepCalls(mode, run[j - 1], events[j - 1]);
    }
  }
}
