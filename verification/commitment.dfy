/** The leader's majority rule. */
module Commitment {
  import opened RaftTypes

  /** How many peers have a match index of at least `i`. */
  function MatchCount(peers: seq<string>, matched: map<string, int>, i: int): (n: nat)
    ensures n <= |peers|
  {
    if peers == [] then 0
    else (if Get(matched, peers[0]) >= i then 1 else 0) + MatchCount(peers[1..], matched, i)
  }

  /** Entry `i` is of the current term and on a strict majority, the leader included. */
  predicate Committable(s: NodeState, peers: seq<string>, i: int)
    requires 0 <= i < |s.log|
  {
    s.log[i].term == s.term && (1 + MatchCount(peers, s.matched, i)) * 2 > |peers| + 1
  }

  /** The greatest committable index in (commit, hi), or commit when there is none. */
  function AdvanceBelow(s: NodeState, peers: seq<string>, hi: int): (r: int)
    requires -1 <= s.commit && hi <= |s.log|
    ensures r == s.commit || s.commit < r < hi
    decreases hi - s.commit
  {
    if hi <= s.commit + 1 then s.commit
    else if Committable(s, peers, hi - 1) then hi - 1
    else AdvanceBelow(s, peers, hi - 1)
  }

  lemma {:induction false} AdvanceBelowIsGreatest(s: NodeState, peers: seq<string>, hi: int)
    requires -1 <= s.commit && hi <= |s.log|
    ensures var r := AdvanceBelow(s, peers, hi); r == s.commit || Committable(s, peers, r)
    ensures forall i | s.commit < i < hi && Committable(s, peers, i) :: i <= AdvanceBelow(s, peers, hi)
    decreases hi - s.commit
  {
    if hi > s.commit + 1 && !Committable(s, peers, hi - 1) {
      AdvanceBelowIsGreatest(s, peers, hi - 1);
    }
  }

  ghost predicate Distinct(peers: seq<string>) {
    forall i, j | 0 <= i < j < |peers| :: peers[i] != peers[j]
  }

  function MatchSet(peers: seq<string>, matched: map<string, int>, i: int): (matching: set<string>) {
    set p | p in peers && Get(matched, p) >= i
  }

  lemma MatchSetHead(peers: seq<string>, matched: map<string, int>, i: int)
    requires Distinct(peers) && peers != []
    ensures Distinct(peers[1..]) && peers[0] !in MatchSet(peers[1..], matched, i)
    ensures MatchSet(peers, matched, i)
            == MatchSet(peers[1..], matched, i) + if Get(matched, peers[0]) >= i then {peers[0]} else {}
  {
    var tail := peers[1..];
    assert forall p :: p in peers <==> p == peers[0] || p in tail;
    assert peers[0] !in tail;
  }

  lemma {:induction false} MatchCountIsSetSize(peers: seq<string>, matched: map<string, int>, i: int)
    requires Distinct(peers)
    ensures MatchCount(peers, matched, i) == |MatchSet(peers, matched, i)|
  {
    if peers != [] {
      MatchSetHead(peers, matched, i);
      MatchCountIsSetSize(peers[1..], matched, i);
    }
  }

  /** Every index below a committable one is matched by a majority as well. */
  lemma {:induction false} MatchCountAntitone(peers: seq<string>, matched: map<string, int>, i: int, j: int)
    requires i <= j
    ensures MatchCount(peers, matched, i) >= MatchCount(peers, matched, j)
  {
    if peers != [] { MatchCountAntitone(peers[1..], matched, i, j); }
  }

  /** The new commit index is the greatest committable index, and every index up to it
      that was not committed before is held by a majority. */
  lemma AdvanceIsMajorityMaximum(s: NodeState, peers: seq<string>, r: int)
    requires -1 <= s.commit
    ensures r == AdvanceBelow(s, peers, |s.log|) <==>
              && (r == s.commit || (s.commit < r < |s.log| && Committable(s, peers, r)))
              && (forall i | s.commit < i < |s.log| && Committable(s, peers, i) :: i <= r)
    ensures forall i | s.commit < i <= AdvanceBelow(s, peers, |s.log|) ::
              (1 + MatchCount(peers, s.matched, i)) * 2 > |peers| + 1
  {
    var a := AdvanceBelow(s, peers, |s.log|);
    AdvanceBelowIsGreatest(s, peers, |s.log|);
    forall i | s.commit < i <= a ensures (1 + MatchCount(peers, s.matched, i)) * 2 > |peers| + 1 {
      MatchCountAntitone(peers, s.matched, i, a);
    }
  }
}
