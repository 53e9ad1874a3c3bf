/** The mismatch scan of AppendEntries and what it does to the follower's log. */
module LogMerge {
  import opened RaftTypes

  /** How many leading `entries` have the same term as the log from index `at` on. */
  function Agreeing(log: seq<Entry>, at: nat, entries: seq<Entry>): (k: nat)
    ensures k <= |entries| && (k > 0 ==> at + k <= |log|)
    ensures forall i | at <= i < at + k :: log[i].term == entries[i - at].term
    ensures k < |entries| && at + k < |log| ==> log[at + k].term != entries[k].term
    decreases |entries|
  {
    if at < |log| && entries != [] && log[at].term == entries[0].term
    then 1 + Agreeing(log, at + 1, entries[1..])
    else 0
  }

  /** std::vector::insert: everything from `at` on moves behind the new entries. */
  function InsertLog(log: seq<Entry>, at: nat, added: seq<Entry>): (longer: seq<Entry>)
    requires at <= |log|
  {
    log[..at] + added + log[at..]
  }

  function Merge(mode: Mode, log: seq<Entry>, prev: int, entries: seq<Entry>): (r: seq<Entry>)
    requires -1 <= prev < |log|
  {
    var k := Agreeing(log, prev + 1, entries);
    if k == |entries| then log
    else if mode == AsWritten then InsertLog(log, prev + 1 + k, entries[k..])
    else log[..prev + 1 + k] + entries[k..]
  }

  predicate Accepts(log: seq<Entry>, prev: int, prevTerm: int) {
    prev == -1 || (0 <= prev < |log| && prevTerm == log[prev].term)
  }

  ghost predicate MatchAt(a: seq<Entry>, b: seq<Entry>, i: nat)
    requires i < |a| && i < |b|
  {
    a[i].term == b[i].term ==> a[..i + 1] == b[..i + 1]
  }

  /** Two logs never hold the same term at the same index with different prefixes. */
  ghost predicate Matching(a: seq<Entry>, b: seq<Entry>) {
    forall i: nat | i < |a| && i < |b| :: MatchAt(a, b, i)
  }

  /** D1: inserting equals replacing exactly when there is no conflicting suffix to drop. */
  lemma InsertIsReplaceIffNoConflict(log: seq<Entry>, prev: int, entries: seq<Entry>)
    requires -1 <= prev < |log|
    ensures Merge(AsWritten, log, prev, entries) == Merge(Repaired, log, prev, entries)
       <==> var k := Agreeing(log, prev + 1, entries); k == |entries| || prev + 1 + k == |log|
  {
    var k := Agreeing(log, prev + 1, entries);
    if k < |entries| {
      var kept := log[prev + 1 + k..];
      assert |Merge(AsWritten, log, prev, entries)| == |Merge(Repaired, log, prev, entries)| + |kept|;
      if kept == [] {
        assert Merge(AsWritten, log, prev, entries) == Merge(Repaired, log, prev, entries);
      }
    }
  }

  /** D1: a conflicting suffix that stays makes the terms of the log go down. */
  lemma InsertBreaksOrder(c: Command)
    ensures var log := [Entry(1, c), Entry(1, c)];
            var r := Merge(AsWritten, log, -1, [Entry(2, c)]);
            |r| == 3 && r[0].term == 2 && r[1].term == 1
            && Merge(Repaired, log, -1, [Entry(2, c)]) == [Entry(2, c)]
  {
    var log := [Entry(1, c), Entry(1, c)];
    assert Agreeing(log, 0, [Entry(2, c)]) == 0;
    assert [Entry(2, c)][0..] == [Entry(2, c)];
  }

  /** `entries` is the leader's log from just behind `prev` on, through index `prev` + |entries|. */
  ghost predicate SliceOf(lead: seq<Entry>, prev: int, entries: seq<Entry>) {
    && -1 <= prev && prev + 1 + |entries| <= |lead|
    && forall i | prev < i < prev + 1 + |entries| :: entries[i - (prev + 1)] == lead[i]
  }

  /** The follower's consistency check against the leader's entry at `prev`. */
  ghost predicate AcceptsAfter(log: seq<Entry>, lead: seq<Entry>, prev: int)
    requires -1 <= prev < |lead|
  {
    Accepts(log, prev, if prev >= 0 then lead[prev].term else -1)
  }

  lemma PrefixBy(a: seq<Entry>, b: seq<Entry>, n: nat, m: nat)
    requires m <= n <= |a| && n <= |b| && a[..n] == b[..n]
    ensures a[..m] == b[..m]
  {
    assert a[..m] == a[..n][..m] && b[..m] == b[..n][..m];
  }

  /** The last index the scan has passed, or the one it started behind. */
  lemma SameTermBelow(log: seq<Entry>, lead: seq<Entry>, prev: int, entries: seq<Entry>, k: nat)
    requires SliceOf(lead, prev, entries) && AcceptsAfter(log, lead, prev)
    requires k == Agreeing(log, prev + 1, entries)
    ensures var m := prev + 1 + k;
            0 <= m <= |log| && m <= |lead| && (m > 0 ==> log[m - 1].term == lead[m - 1].term)
  {
    if k > 0 { assert entries[k - 1] == lead[prev + k]; }
  }

  lemma MatchThrough(log: seq<Entry>, lead: seq<Entry>, m: nat)
    requires Matching(log, lead) && m <= |log| && m <= |lead| && (m > 0 ==> log[m - 1].term == lead[m - 1].term)
    ensures log[..m] == lead[..m]
  {
    if m > 0 { assert MatchAt(log, lead, m - 1); }
  }

  lemma ScanStops(log: seq<Entry>, lead: seq<Entry>, prev: int, entries: seq<Entry>, k: nat)
    requires -1 <= prev && SliceOf(lead, prev, entries) && k == Agreeing(log, prev + 1, entries)
    ensures k < |entries| && prev + 1 + k < |log| ==> log[prev + 1 + k].term != lead[prev + 1 + k].term
  {
    if k < |entries| { assert entries[k] == lead[prev + 1 + k]; }
  }

  /** What the scan finds, in terms of the leader's log. */
  lemma ScanOfSlice(log: seq<Entry>, lead: seq<Entry>, prev: int, entries: seq<Entry>, k: nat)
    requires Matching(log, lead) && SliceOf(lead, prev, entries) && AcceptsAfter(log, lead, prev)
    requires k == Agreeing(log, prev + 1, entries)
    ensures prev + 1 + k <= |log| && log[..prev + 1 + k] == lead[..prev + 1 + k]
    ensures k < |entries| && prev + 1 + k < |log| ==> log[prev + 1 + k].term != lead[prev + 1 + k].term
  {
    SameTermBelow(log, lead, prev, entries, k);
    ScanStops(log, lead, prev, entries, k);
    assert k <= |entries| && prev + 1 + |entries| <= |lead|;
    hide Matching, AcceptsAfter, Agreeing, SliceOf;
    MatchThrough(log, lead, prev + 1 + k);
  }

  lemma ReplaceWithSlice(log: seq<Entry>, lead: seq<Entry>, prev: int, entries: seq<Entry>, k: nat)
    requires SliceOf(lead, prev, entries) && k <= |entries| && prev + 1 + k <= |log|
    requires log[..prev + 1 + k] == lead[..prev + 1 + k]
    ensures log[..prev + 1 + k] + entries[k..] == lead[..prev + 1 + |entries|]
  {
    var at := prev + 1 + k;
    var r := log[..at] + entries[k..];
    forall i | 0 <= i < |r| ensures r[i] == lead[i] {
      if i < at { assert r[i] == lead[..at][i]; } else { assert r[i] == entries[i - (prev + 1)]; }
    }
  }

  /** An accepted slice of the leader's log makes the follower's log either keep what it
      had, when that already extends the slice, or become the leader's log through the slice. */
  lemma MergeOfSlice(log: seq<Entry>, lead: seq<Entry>, prev: int, entries: seq<Entry>)
    requires Matching(log, lead) && SliceOf(lead, prev, entries) && AcceptsAfter(log, lead, prev)
    ensures prev < |log|
    ensures var upto := lead[..prev + 1 + |entries|];
            Merge(Repaired, log, prev, entries) == if upto <= log then log else upto
  {
    hide Agreeing, Matching, AcceptsAfter;
    var k := Agreeing(log, prev + 1, entries);
    ScanOfSlice(log, lead, prev, entries, k);
    if k < |entries| {
      ReplaceWithSlice(log, lead, prev, entries, k);
      var at := prev + 1 + k;
      var upto := lead[..prev + 1 + |entries|];
      assert upto[at] == lead[at];
    }
  }

  lemma SharedThrough(log: seq<Entry>, lead: seq<Entry>, q: nat, n: nat)
    requires Matching(log, lead) && q < |lead| && AcceptsAfter(log, lead, q) && n <= q + 1
    ensures lead[..n] <= log
  {
    assert MatchAt(log, lead, q);
    PrefixBy(log, lead, q + 1, n);
  }

  lemma StillAccepts(log: seq<Entry>, lead: seq<Entry>, p: int, es: seq<Entry>, q: int)
    requires Matching(log, lead) && SliceOf(lead, p, es) && AcceptsAfter(log, lead, p)
    requires -1 <= q < |lead| && AcceptsAfter(log, lead, q)
    ensures p < |log|
    ensures var r := Merge(Repaired, log, p, es);
            Matching(r, lead) && AcceptsAfter(r, lead, q)
  {
    MergeOfSlice(log, lead, p, es);
    var n := p + 1 + |es|;
    if q >= 0 && q >= n { SharedThrough(log, lead, q, n); }
    if !(lead[..n] <= log) {
      var r := lead[..n];
      forall i: nat | i < |r| && i < |lead| ensures MatchAt(r, lead, i) {}
    }
  }

  lemma PrefixIn(lead: seq<Entry>, m: nat, n: nat, log: seq<Entry>)
    requires m <= n <= |lead| && lead[..n] <= log
    ensures lead[..m] <= log
  {
    assert lead[..m] == lead[..n][..m] == log[..n][..m];
  }

  /** The slice that reaches further leaves the same log whether or not the other one came before. */
  lemma ShorterFirst(log: seq<Entry>, lead: seq<Entry>, p: int, es: seq<Entry>, q: int, fs: seq<Entry>)
    requires Matching(log, lead) && p + |es| <= q + |fs|
    requires SliceOf(lead, p, es) && AcceptsAfter(log, lead, p)
    requires SliceOf(lead, q, fs) && AcceptsAfter(log, lead, q)
    ensures p < |log| && q < |log| && q < |Merge(Repaired, log, p, es)|
    ensures Merge(Repaired, Merge(Repaired, log, p, es), q, fs) == Merge(Repaired, log, q, fs)
  {
    hide Matching, Agreeing, Merge;
    var m, n := p + 1 + |es|, q + 1 + |fs|;
    MergeOfSlice(log, lead, p, es);
    MergeOfSlice(log, lead, q, fs);
    StillAccepts(log, lead, p, es, q);
    MergeOfSlice(Merge(Repaired, log, p, es), lead, q, fs);
    if lead[..n] <= log { PrefixIn(lead, m, n, log); }
  }

  /** And the other one changes nothing when it comes after. */
  lemma LongerFirst(log: seq<Entry>, lead: seq<Entry>, p: int, es: seq<Entry>, q: int, fs: seq<Entry>)
    requires Matching(log, lead) && p + |es| <= q + |fs|
    requires SliceOf(lead, p, es) && AcceptsAfter(log, lead, p)
    requires SliceOf(lead, q, fs) && AcceptsAfter(log, lead, q)
    ensures p < |log| && q < |log| && p < |Merge(Repaired, log, q, fs)|
    ensures Merge(Repaired, Merge(Repaired, log, q, fs), p, es) == Merge(Repaired, log, q, fs)
  {
    hide Matching, Agreeing, Merge;
    var m, n := p + 1 + |es|, q + 1 + |fs|;
    var r := Merge(Repaired, log, q, fs);
    MergeOfSlice(log, lead, p, es);
    MergeOfSlice(log, lead, q, fs);
    StillAccepts(log, lead, q, fs, p);
    MergeOfSlice(r, lead, p, es);
    PrefixIn(lead, m, n, r);
  }

  /** Two slices of one leader's log, both acceptable to begin with, can arrive in either order. */
  lemma MergeOrderInsensitive(log: seq<Entry>, lead: seq<Entry>, p: int, es: seq<Entry>, q: int, fs: seq<Entry>)
    requires Matching(log, lead)
    requires SliceOf(lead, p, es) && AcceptsAfter(log, lead, p)
    requires SliceOf(lead, q, fs) && AcceptsAfter(log, lead, q)
    ensures p < |log| && q < |log|
    ensures AcceptsAfter(Merge(Repaired, log, p, es), lead, q) && q < |Merge(Repaired, log, p, es)|
    ensures AcceptsAfter(Merge(Repaired, log, q, fs), lead, p) && p < |Merge(Repaired, log, q, fs)|
    ensures Merge(Repaired, Merge(Repaired, log, p, es), q, fs) == Merge(Repaired, Merge(Repaired, log, q, fs), p, es)
  {
    if p + |es| <= q + |fs| {
      ShorterFirst(log, lead, p, es, q, fs);
      LongerFirst(log, lead, p, es, q, fs);
    } else {
      ShorterFirst(log, lead, q, fs, p, es);
      LongerFirst(log, lead, q, fs, p, es);
    }
    StillAccepts(log, lead, p, es, q);
    StillAccepts(log, lead, q, fs, p);
  }

  /** Re-delivery changes nothing, whatever the two logs are. */
  lemma MergeIdempotent(log: seq<Entry>, prev: int, entries: seq<Entry>)
    requires -1 <= prev < |log|
    ensures var once := Merge(Repaired, log, prev, entries);
            prev < |once| && once[..prev + 1] == log[..prev + 1]
            && (forall j | 0 <= j < |entries| :: prev + 1 + j < |once| && once[prev + 1 + j].term == entries[j].term)
            && Merge(Repaired, once, prev, entries) == once
  {
    var k := Agreeing(log, prev + 1, entries);
    var once := Merge(Repaired, log, prev, entries);
    forall j | 0 <= j < |entries| ensures prev + 1 + j < |once| && once[prev + 1 + j].term == entries[j].term {
      if k < |entries| && j >= k { assert once[prev + 1 + j] == entries[k..][j - k]; }
    }
  }

  /** The unsigned comparisons of the consistency check agree with the signed ones for
      every int index, so the wire type does no harm there. */
  lemma AcceptsOnTheWire(log: seq<Entry>, prev: int, prevTerm: int)
    requires -0x8000_0000 <= prev < 0x8000_0000 && |log| <= 0x8000_0000
    requires if prev >= 0 then 0 <= prevTerm < 0x8000_0000 else prevTerm == -1
    requires forall i | 0 <= i < |log| :: log[i].term < 0x8000_0000
    ensures (U32(prev) == U32(-1) || (U32(prev) < |log| && U32(prevTerm) == log[U32(prev)].term))
       <==> Accepts(log, prev, prevTerm)
  {
    if prev < 0 {
      assert U32(prev) == prev + 0x1_0000_0000;
    } else {
      assert U32(prev) == prev;
    }
  }

  // ----- the merge index by index -----

  /** The first `k` entries have the terms the log has from `at` on, and the next one, if there is
      one on both sides, has not. */
  ghost predicate FirstDisagreement(log: seq<Entry>, at: nat, entries: seq<Entry>, k: nat) {
    && k <= |entries| && at + k <= |log|
    && (forall j | 0 <= j < k :: log[at + j].term == entries[j].term)
    && (k < |entries| && at + k < |log| ==> log[at + k].term != entries[k].term)
  }

  /** Before `at` the old entries, then the added ones, then every old entry from `at` on, each as
      many places later as entries were added. */
  ghost predicate InsertedAt(before: seq<Entry>, at: nat, added: seq<Entry>, after: seq<Entry>) {
    && at <= |before| && |after| == |before| + |added|
    && (forall i | 0 <= i < at :: after[i] == before[i])
    && (forall j | 0 <= j < |added| :: after[at + j] == added[j])
    && (forall i | at <= i < |before| :: before[i] == after[i + |added|])
  }

  /** Before `at` the old entries, then the added ones, then nothing; unless nothing is added. */
  ghost predicate ReplacedAt(before: seq<Entry>, at: nat, added: seq<Entry>, after: seq<Entry>) {
    if added == [] then after == before
    else
      && at <= |before| && |after| == at + |added|
      && (forall i | 0 <= i < at :: after[i] == before[i])
      && (forall j | 0 <= j < |added| :: after[at + j] == added[j])
  }

  lemma {:induction false} ScanIsFirst(log: seq<Entry>, at: nat, entries: seq<Entry>, k: nat)
    requires at <= |log|
    ensures FirstDisagreement(log, at, entries, k) <==> k == Agreeing(log, at, entries)
  {
    var r := Agreeing(log, at, entries);
    forall j | 0 <= j < r ensures log[at + j].term == entries[j].term {
      assert log[at + j].term == entries[at + j - at].term;
    }
  }

  lemma InsertedByIndex(log: seq<Entry>, at: nat, added: seq<Entry>)
    requires at <= |log|
    ensures InsertedAt(log, at, added, InsertLog(log, at, added))
  {
  }

  lemma ReplacedByIndex(log: seq<Entry>, at: nat, added: seq<Entry>)
    requires at <= |log| && added != []
    ensures ReplacedAt(log, at, added, log[..at] + added)
  {
  }

  lemma NothingAdded(log: seq<Entry>, at: nat)
    requires at <= |log|
    ensures InsertedAt(log, at, [], log) && ReplacedAt(log, at, [], log)
  {
  }

  lemma MergeAt(mode: Mode, log: seq<Entry>, prev: int, entries: seq<Entry>, k: nat)
    requires -1 <= prev < |log| && k == Agreeing(log, prev + 1, entries)
    ensures Merge(mode, log, prev, entries) ==
              if k == |entries| then log
              else if mode == AsWritten then InsertLog(log, prev + 1 + k, entries[k..])
              else log[..prev + 1 + k] + entries[k..]
  {
  }

  /** As written the rest is inserted, repaired it replaces what was there. */
  ghost predicate ChangedAt(mode: Mode, before: seq<Entry>, at: nat, added: seq<Entry>, after: seq<Entry>) {
    if mode == AsWritten then InsertedAt(before, at, added, after) else ReplacedAt(before, at, added, after)
  }

  /** What the merge leaves, index by index, from the one first disagreement there is. */
  lemma MergedByIndex(mode: Mode, log: seq<Entry>, prev: int, entries: seq<Entry>, k: nat)
    requires -1 <= prev < |log| && FirstDisagreement(log, prev + 1, entries, k)
    ensures ChangedAt(mode, log, prev + 1 + k, entries[k..], Merge(mode, log, prev, entries))
  {
    var at, added := prev + 1 + k, entries[k..];
    ScanIsFirst(log, prev + 1, entries, k);
    MergeAt(mode, log, prev, entries, k);
    hide FirstDisagreement, InsertedAt, ReplacedAt, InsertLog, Merge, Agreeing;
    if k == |entries| {
      NothingAdded(log, at);
    } else if mode == AsWritten {
      InsertedByIndex(log, at, added);
    } else {
      ReplacedByIndex(log, at, added);
    }
  }

  /** From the first disagreement on the entries stand in the log, and behind them all it held there. */
  ghost predicate MergedInto(before: seq<Entry>, at: nat, entries: seq<Entry>, after: seq<Entry>) {
    forall k: nat | FirstDisagreement(before, at, entries, k) :: InsertedAt(before, at + k, entries[k..], after)
  }

  lemma MergedAsWritten(log: seq<Entry>, prev: int, entries: seq<Entry>)
    requires -1 <= prev < |log|
    ensures MergedInto(log, prev + 1, entries, Merge(AsWritten, log, prev, entries))
  {
    forall k: nat | FirstDisagreement(log, prev + 1, entries, k)
      ensures InsertedAt(log, prev + 1 + k, entries[k..], Merge(AsWritten, log, prev, entries))
    {
      MergedByIndex(AsWritten, log, prev, entries, k);
    }
  }
}
