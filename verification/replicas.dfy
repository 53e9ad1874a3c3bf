/** The cluster and the chunk files together: what the files of a replica hold at any moment of any
    run, crashes included. The consumer of the commit queue may lag behind it by any amount. */
module Replicas {
  import opened RaftTypes
  import opened Handlers
  import opened Cluster
  import opened Invariant
  import opened Induction
  import opened Safety
  import opened Paths
  import opened ChunkStore
  import ChunkServer

  function QueueAt(run: seq<State>, n: string, j: nat): (queue: seq<Entry>)
    requires j < |run|
  {
    if n in run[j].nodes then run[j].nodes[n].queue else []
  }

  ghost predicate ConsumesAt(run: seq<State>, events: seq<Event>, n: string, done: seq<nat>, j: nat)
    requires j < |events| && |done| == |run| == |events| + 1
  {
    if events[j] == Restarts(n) then done[j + 1] == 0 else done[j] <= done[j + 1]
  }

  /** `done[j]` is how many entries of its queue the process of `n` has applied at moment `j`. */
  ghost predicate Consumes(run: seq<State>, events: seq<Event>, n: string, done: seq<nat>) {
    && |done| == |run| == |events| + 1 && done[0] == 0
    && (forall j: nat | j < |run| :: done[j] <= |QueueAt(run, n, j)|)
    && (forall j: nat | j < |events| :: ConsumesAt(run, events, n, done, j))
  }

  function AppliedAt(run: seq<State>, n: string, done: seq<nat>, j: nat): (applied: seq<Entry>)
    requires j < |run| == |done| && done[j] <= |QueueAt(run, n, j)|
  {
    QueueAt(run, n, j)[..done[j]]
  }

  /** What the consumer applies between moments `j` and `j` + 1 when the node does not restart. */
  function AppliedBy(run: seq<State>, n: string, done: seq<nat>, j: nat): (applied: seq<Entry>)
    requires j + 1 < |run| == |done|
  {
    var queue := QueueAt(run, n, j + 1);
    if done[j] <= done[j + 1] <= |queue| then queue[done[j]..done[j + 1]] else []
  }

  /** What the processes of `n` have applied so far. */
  function HistoryAt(run: seq<State>, events: seq<Event>, n: string, done: seq<nat>, j: nat): (h: History)
    requires j < |run| == |done| == |events| + 1
  {
    if j == 0 then Fresh
    else
      var before := HistoryAt(run, events, n, done, j - 1);
      if events[j - 1] == Restarts(n) then Crashed(before) else Applied(before, AppliedBy(run, n, done, j - 1))
  }

  function FilesAt(root: string, run: seq<State>, events: seq<Event>, n: string, done: seq<nat>, j: nat): (files: Files)
    requires j < |run| == |done| == |events| + 1
  {
    FilesAfter(root, HistoryAt(run, events, n, done, j))
  }

  // ----- the queue of a node along a run -----

  lemma NodeStays(run: seq<State>, events: seq<Event>, n: string, i: nat, j: nat)
    requires Run(Repaired, run, events) && i <= j < |run|
    ensures n in run[i].nodes <==> n in run[j].nodes
  {
    RunExtends(run, events, i, j);
  }

  lemma Window(a: seq<Entry>, b: seq<Entry>, x: nat, y: nat)
    requires a <= b && x <= |a| && x <= y <= |b|
    ensures a[..x] + b[x..y] == b[..y]
  {
    assert a[..x] == b[..x];
  }

  lemma AppliedStep(run: seq<State>, events: seq<Event>, n: string, done: seq<nat>, j: nat)
    requires Run(Repaired, run, events) && Consumes(run, events, n, done) && j < |events| && n in run[j].nodes
    ensures n in run[j + 1].nodes
    ensures if events[j] == Restarts(n) then AppliedAt(run, n, done, j + 1) == []
            else AppliedAt(run, n, done, j) + AppliedBy(run, n, done, j) == AppliedAt(run, n, done, j + 1)
  {
    CommittedPrefixStays(run, events, j, n);
    assert ConsumesAt(run, events, n, done, j);
    if events[j] != Restarts(n) { Window(QueueAt(run, n, j), QueueAt(run, n, j + 1), done[j], done[j + 1]); }
  }

  // ----- since the process started -----

  /** The moment the process of `n` that runs at moment `j` started. */
  function Started(events: seq<Event>, n: string, j: nat): (start: nat)
    requires j <= |events|
    ensures start <= j
    ensures start == 0 || events[start - 1] == Restarts(n)
    ensures forall i | start <= i < j :: events[i] != Restarts(n)
  {
    if j == 0 || events[j - 1] == Restarts(n) then j else Started(events, n, j - 1)
  }

  lemma {:induction false} HistorySinceStart(run: seq<State>, events: seq<Event>, n: string, done: seq<nat>, j: nat)
    requires j < |run| == |done| == |events| + 1
    ensures UpToStart(HistoryAt(run, events, n, done, j)) == HistoryAt(run, events, n, done, Started(events, n, j))
  {
    if j > 0 { HistorySinceStart(run, events, n, done, j - 1); }
  }

  lemma AppliedFirst(run: seq<State>, events: seq<Event>, n: string, done: seq<nat>)
    requires Consumes(run, events, n, done)
    ensures Since(HistoryAt(run, events, n, done, 0)) == AppliedAt(run, n, done, 0)
  {
  }

  lemma AppliedNext(run: seq<State>, events: seq<Event>, n: string, done: seq<nat>, j: nat)
    requires Run(Repaired, run, events) && Consumes(run, events, n, done) && j < |events| && n in run[0].nodes
    requires Since(HistoryAt(run, events, n, done, j)) == AppliedAt(run, n, done, j)
    ensures Since(HistoryAt(run, events, n, done, j + 1)) == AppliedAt(run, n, done, j + 1)
  {
    NodeStays(run, events, n, 0, j);
    AppliedStep(run, events, n, done, j);
  }

  lemma {:induction false} HistoryApplied(run: seq<State>, events: seq<Event>, n: string, done: seq<nat>, j: nat)
    requires Run(Repaired, run, events) && Consumes(run, events, n, done) && j < |run| && n in run[0].nodes
    ensures Since(HistoryAt(run, events, n, done, j)) == AppliedAt(run, n, done, j)
  {
    hide Since, AppliedAt, Consumes;
    if j == 0 {
      AppliedFirst(run, events, n, done);
    } else {
      HistoryApplied(run, events, n, done, j - 1);
      AppliedNext(run, events, n, done, j - 1);
    }
  }

  /** At every moment of every run the files are those the process found when it started, with what
      it has applied of its queue since. */
  lemma FilesSinceStart(root: string, run: seq<State>, events: seq<Event>, n: string, done: seq<nat>, j: nat)
    requires Run(Repaired, run, events) && Consumes(run, events, n, done) && j < |run| && n in run[j].nodes
    ensures FilesAt(root, run, events, n, done, j)
         == ApplyAll(root, FilesAt(root, run, events, n, done, Started(events, n, j)), AppliedAt(run, n, done, j))
  {
    NodeStays(run, events, n, 0, j);
    HistoryApplied(run, events, n, done, j);
    HistorySinceStart(run, events, n, done, j);
    FilesSince(root, HistoryAt(run, events, n, done, j));
  }

  // ----- serving an upload -----

  /** Nothing applied from position `from` on touches one of the chunks. */
  ghost predicate LeavesAlone(root: string, applied: seq<Entry>, from: nat, chunks: seq<Chunk>) {
    forall x, c | from <= x < |applied| && 0 <= c < |chunks| ::
      Touched(root, applied[x].command) != PathOf(root, chunks[c])
  }

  lemma QueueInApplied(run: seq<State>, events: seq<Event>, i: nat, a: string, j: nat, b: string, done: seq<nat>,
                       x: nat)
    requires Run(Repaired, run, events) && i < |run| && j < |run| && a in run[i].nodes && b in run[j].nodes
    requires Consumes(run, events, b, done) && x <= |QueueAt(run, a, i)| && x <= done[j]
    ensures QueueAt(run, a, i)[..x] <= AppliedAt(run, b, done, j)
  {
    StateMachineSafety(run, events, i, a, j, b);
  }

  lemma DownloadAt(root: string, run: seq<State>, events: seq<Event>, j: nat, b: string, done: seq<nat>,
                   id: string, version: int, data: seq<byte>, size: nat, chunks: seq<Chunk>, at: seq<nat>)
    requires Run(Repaired, run, events) && j < |run| && b in run[j].nodes && Consumes(run, events, b, done)
    requires size > 0 && data != [] && IsSplit(id, version, data, size, chunks)
    requires LatestUpload(root, AppliedAt(run, b, done, j), chunks, at)
    ensures |chunks| > 0 && EndsAt(FilesAt(root, run, events, b, done, j), root, id, version, |chunks| - 1)
    ensures Assemble(FilesAt(root, run, events, b, done, j), root, id, version, |chunks| - 1) == data
  {
    FilesSinceStart(root, run, events, b, done, j);
    var found := FilesAt(root, run, events, b, done, Started(events, b, j));
    DownloadReturnsUpload(root, found, AppliedAt(run, b, done, j), id, version, data, size, chunks, at);
  }

  /** An upload that replica `a` was handed is downloaded from replica `b`, byte for byte, once `b`
      has applied as many commands and unless a later one it has applied touches the video, whatever
      crashes, elections and other uploads there were in between. */
  lemma ReplicaServesUpload(run: seq<State>, events: seq<Event>, i: nat, a: string, j: nat, b: string, done: seq<nat>,
                            root: string, id: string, version: int, data: seq<byte>, size: nat, chunks: seq<Chunk>,
                            at: seq<nat>)
    requires Run(Repaired, run, events) && i < |run| && j < |run| && a in run[i].nodes && b in run[j].nodes
    requires size > 0 && data != [] && IsSplit(id, version, data, size, chunks)
    requires LatestUpload(root, QueueAt(run, a, i), chunks, at)
    requires Consumes(run, events, b, done) && |QueueAt(run, a, i)| <= done[j]
    requires LeavesAlone(root, AppliedAt(run, b, done, j), |QueueAt(run, a, i)|, chunks)
    ensures |chunks| > 0 && EndsAt(FilesAt(root, run, events, b, done, j), root, id, version, |chunks| - 1)
    ensures Assemble(FilesAt(root, run, events, b, done, j), root, id, version, |chunks| - 1) == data
  {
    QueueInApplied(run, events, i, a, j, b, done, |QueueAt(run, a, i)|);
    DownloadAt(root, run, events, j, b, done, id, version, data, size, chunks, at);
  }

  // ----- from the upload at a leader to the download at a replica -----

  /** From moment `i` on, node `n` handles an upload: it submits one chunk after the other. */
  ghost predicate Uploads(events: seq<Event>, i: nat, n: string, chunks: seq<Chunk>) {
    && i + |chunks| <= |events|
    && forall k: nat | k < |chunks| :: events[i + k] == ClientSubmits(n, Command(UPLOAD, ChunkArgs(chunks[k])))
  }

  lemma SubmitStep(s: State, n: string, c: Command)
    requires Enabled(Repaired, s, ClientSubmits(n, c))
    ensures n in Submits(s, n, c).nodes && Submits(s, n, c).nodes[n] == Submit(s.nodes[n], Entry(s.nodes[n].term, c))
  {
  }

  lemma {:induction false} UploadedState(run: seq<State>, events: seq<Event>, i: nat, n: string, chunks: seq<Chunk>,
                                         k: nat)
    requires Run(Repaired, run, events) && Uploads(events, i, n, chunks) && n in run[i].nodes && k <= |chunks|
    ensures n in run[i + k].nodes && run[i + k].nodes[n] == ChunkServer.Submitted(run[i].nodes[n], chunks[..k])
  {
    if k > 0 {
      UploadedState(run, events, i, n, chunks, k - 1);
      assert StepAt(Repaired, run, events, i + k - 1);
      var c := Command(UPLOAD, ChunkArgs(chunks[k - 1]));
      assert events[i + (k - 1)] == ClientSubmits(n, c);
      SubmitStep(run[i + k - 1], n, c);
      assert chunks[..k][..k - 1] == chunks[..k - 1];
      ChunkServer.SubmittedAppends(run[i].nodes[n], chunks[..k - 1]);
    }
  }

  /** The leader's log after the upload holds the chunks behind what it held before. */
  lemma UploadedLog(run: seq<State>, events: seq<Event>, i: nat, n: string, chunks: seq<Chunk>)
    requires Run(Repaired, run, events) && Uploads(events, i, n, chunks) && n in run[i].nodes
    requires run[i].nodes[n].role == Leader
    ensures var st, after := run[i].nodes[n], run[i + |chunks|];
            && LeadsAt(after, n, st.term) && |after.nodes[n].log| == |st.log| + |chunks|
            && forall k | 0 <= k < |chunks| ::
                 after.nodes[n].log[|st.log| + k] == ChunkServer.UploadEntry(st.term, chunks[k])
  {
    UploadedState(run, events, i, n, chunks, |chunks|);
    assert chunks[..|chunks|] == chunks;
    ChunkServer.SubmittedAppends(run[i].nodes[n], chunks);
  }

  lemma LeaderKeepsLog(run: seq<State>, events: seq<Event>, i: nat, m: nat, n: string, t: nat)
    requires Run(Repaired, run, events) && i <= m < |run| && LeadsAt(run[i], n, t) && LeadsAt(run[m], n, t)
    ensures run[i].nodes[n].log <= run[m].nodes[n].log
  {
    RunLeader(run, events, i, n, t);
    RunLeader(run, events, m, n, t);
    RunReign(run, events, i, m);
  }

  lemma PathsDiffer(root: string, id: string, version: int, data: seq<byte>, size: nat, chunks: seq<Chunk>, i: nat,
                    j: nat)
    requires IsSplit(id, version, data, size, chunks) && i < |chunks| && j < |chunks| && i != j
    ensures PathOf(root, chunks[i]) != PathOf(root, chunks[j])
  {
    assert PieceOk(id, version, data, size, chunks, i);
    assert PieceOk(id, version, data, size, chunks, j);
    if PathOf(root, chunks[i]) == PathOf(root, chunks[j]) {
      FilenameInjective(root, id, version, i, id, version, j);
    }
  }

  /** `applied` holds the chunks one after the other from position `base` on. */
  ghost predicate HoldsChunks(applied: seq<Entry>, base: nat, chunks: seq<Chunk>) {
    && base + |chunks| <= |applied|
    && forall k | 0 <= k < |chunks| :: applied[base + k].command == Command(UPLOAD, ChunkArgs(chunks[k]))
  }

  lemma InnerPaths(root: string, applied: seq<Entry>, base: nat, id: string, version: int, data: seq<byte>, size: nat,
                   chunks: seq<Chunk>, k: nat, x: nat)
    requires IsSplit(id, version, data, size, chunks) && HoldsChunks(applied, base, chunks)
    requires k < |chunks| && base + k < x < base + |chunks|
    ensures Touched(root, applied[x].command) != PathOf(root, chunks[k])
  {
    assert applied[base + (x - base)].command == Command(UPLOAD, ChunkArgs(chunks[x - base]));
    PathsDiffer(root, id, version, data, size, chunks, k, x - base);
  }

  lemma LaterPaths(root: string, applied: seq<Entry>, base: nat, id: string, version: int, data: seq<byte>, size: nat,
                   chunks: seq<Chunk>, k: nat, x: nat)
    requires IsSplit(id, version, data, size, chunks) && HoldsChunks(applied, base, chunks)
    requires LeavesAlone(root, applied, base + |chunks|, chunks) && k < |chunks| && base + k < x < |applied|
    ensures Touched(root, applied[x].command) != PathOf(root, chunks[k])
  {
    if x < base + |chunks| { InnerPaths(root, applied, base, id, version, data, size, chunks, k, x); }
  }

  lemma HeldIsLatest(root: string, applied: seq<Entry>, base: nat, id: string, version: int, data: seq<byte>, size: nat,
                     chunks: seq<Chunk>) returns (at: seq<nat>)
    requires IsSplit(id, version, data, size, chunks) && HoldsChunks(applied, base, chunks)
    requires LeavesAlone(root, applied, base + |chunks|, chunks)
    ensures LatestUpload(root, applied, chunks, at)
  {
    at := seq(|chunks|, k requires 0 <= k < |chunks| => base + k);
    forall k, x | 0 <= k < |chunks| && at[k] < x < |applied|
      ensures Touched(root, applied[x].command) != PathOf(root, chunks[k])
    {
      LaterPaths(root, applied, base, id, version, data, size, chunks, k, x);
    }
  }

  /** What a leader's queue holds once its commit index has passed the upload. */
  lemma UploadQueued(run: seq<State>, events: seq<Event>, i: nat, n: string, m: nat, chunks: seq<Chunk>)
    requires Run(Repaired, run, events) && Uploads(events, i, n, chunks) && i + |chunks| <= m < |run|
    requires n in run[i].nodes && run[i].nodes[n].role == Leader && LeadsAt(run[m], n, run[i].nodes[n].term)
    requires run[m].nodes[n].commit >= |run[i].nodes[n].log| + |chunks| - 1
    ensures HoldsChunks(QueueAt(run, n, m), |run[i].nodes[n].log|, chunks)
  {
    UploadedLog(run, events, i, n, chunks);
    LeaderKeepsLog(run, events, i + |chunks|, m, n, run[i].nodes[n].term);
    RunApplies(run, events, m, n);
  }

  /** End to end: a video uploaded at a leader is downloaded byte for byte from every replica that has
      applied the commands through its last chunk, once the leader has committed it in its term and
      unless a later command the replica has applied touches the video. */
  lemma UploadServed(run: seq<State>, events: seq<Event>, i: nat, n: string, m: nat, j: nat, b: string, done: seq<nat>,
                     root: string, id: string, version: int, data: seq<byte>, size: nat, chunks: seq<Chunk>)
    requires Run(Repaired, run, events) && Uploads(events, i, n, chunks) && i + |chunks| <= m < |run|
    requires size > 0 && data != [] && IsSplit(id, version, data, size, chunks)
    requires n in run[i].nodes && run[i].nodes[n].role == Leader && LeadsAt(run[m], n, run[i].nodes[n].term)
    requires run[m].nodes[n].commit >= |run[i].nodes[n].log| + |chunks| - 1
    requires j < |run| && b in run[j].nodes && Consumes(run, events, b, done)
    requires |run[i].nodes[n].log| + |chunks| <= done[j]
    requires LeavesAlone(root, AppliedAt(run, b, done, j), |run[i].nodes[n].log| + |chunks|, chunks)
    ensures |chunks| > 0 && EndsAt(FilesAt(root, run, events, b, done, j), root, id, version, |chunks| - 1)
    ensures Assemble(FilesAt(root, run, events, b, done, j), root, id, version, |chunks| - 1) == data
  {
    var base := |run[i].nodes[n].log|;
    UploadQueued(run, events, i, n, m, chunks);
    QueueInApplied(run, events, m, n, j, b, done, base + |chunks|);
    var applied := AppliedAt(run, b, done, j);
    HoldsInPrefix(QueueAt(run, n, m), applied, base, chunks);
    var at := HeldIsLatest(root, applied, base, id, version, data, size, chunks);
    DownloadAt(root, run, events, j, b, done, id, version, data, size, chunks, at);
  }

  lemma HoldsInPrefix(queue: seq<Entry>, applied: seq<Entry>, base: nat, chunks: seq<Chunk>)
    requires HoldsChunks(queue, base, chunks) && queue[..base + |chunks|] <= applied
    ensures HoldsChunks(applied, base, chunks)
  {
    forall k | 0 <= k < |chunks| ensures applied[base + k].command == Command(UPLOAD, ChunkArgs(chunks[k])) {
      assert queue[..base + |chunks|][base + k] == queue[base + k];
    }
  }

  // ----- recovery -----

  lemma AppliedWithin(run: seq<State>, events: seq<Event>, n: string, done: seq<nat>, k: nat, j: nat)
    requires Run(Repaired, run, events) && Consumes(run, events, n, done) && k <= j < |run| && n in run[j].nodes
    requires done[k] <= done[j]
    ensures AppliedAt(run, n, done, k) <= AppliedAt(run, n, done, j)
  {
    NodeStays(run, events, n, k, j);
    QueueInApplied(run, events, k, n, j, n, done, done[k]);
  }

  lemma SinceBelow(run: seq<State>, events: seq<Event>, n: string, done: seq<nat>, k: nat, j: nat)
    requires Run(Repaired, run, events) && Consumes(run, events, n, done) && k <= j < |run| && n in run[j].nodes
    requires done[k] <= done[j]
    ensures Since(HistoryAt(run, events, n, done, k)) <= AppliedAt(run, n, done, j)
  {
    NodeStays(run, events, n, 0, j);
    HistoryApplied(run, events, n, done, k);
    AppliedWithin(run, events, n, done, k, j);
  }

  lemma WithinNext(run: seq<State>, events: seq<Event>, n: string, done: seq<nat>, k: nat, log: seq<Entry>)
    requires k < |events| && |run| == |done| == |events| + 1 && SinceWithin(HistoryAt(run, events, n, done, k), log)
    requires Since(HistoryAt(run, events, n, done, k + 1)) <= log
    ensures SinceWithin(HistoryAt(run, events, n, done, k + 1), log)
  {
    assert HistoryAt(run, events, n, done, k + 1).before == HistoryAt(run, events, n, done, k);
  }

  lemma {:induction false} HistoryWithin(run: seq<State>, events: seq<Event>, n: string, done: seq<nat>, k: nat, j: nat)
    requires Run(Repaired, run, events) && Consumes(run, events, n, done) && k <= j < |run| && n in run[j].nodes
    requires forall i: nat | i <= j :: done[i] <= done[j]
    ensures SinceWithin(HistoryAt(run, events, n, done, k), AppliedAt(run, n, done, j))
  {
    SinceBelow(run, events, n, done, k, j);
    if k > 0 {
      HistoryWithin(run, events, n, done, k - 1, j);
      WithinNext(run, events, n, done, k - 1, AppliedAt(run, n, done, j));
    }
  }

  /** Once a process has applied at least as many commands as every process before it on the same
      node, the files are what those commands alone make of an empty store: nothing earlier
      processes wrote, at whatever point they crashed, shows any more. */
  lemma FilesConverge(root: string, run: seq<State>, events: seq<Event>, n: string, done: seq<nat>, j: nat)
    requires Run(Repaired, run, events) && Consumes(run, events, n, done) && j < |run| && n in run[j].nodes
    requires forall k: nat | k <= j :: done[k] <= done[j]
    ensures FilesAt(root, run, events, n, done, j) == ApplyAll(root, map[], AppliedAt(run, n, done, j))
  {
    NodeStays(run, events, n, 0, j);
    HistoryApplied(run, events, n, done, j);
    HistoryWithin(run, events, n, done, j, j);
    HistoryConverges(root, HistoryAt(run, events, n, done, j));
  }
}
