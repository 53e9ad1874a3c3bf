/** Splitting a video into chunks, the chunk files of a replica, and putting a video together
    again; and what applying a log of commands does to those files. */
module ChunkStore {
  import opened RaftTypes
  import opened Restore
  import opened Paths

  /** The chunk files of one replica, by path. */
  type Files = map<string, Chunk>

  // ----- splitting -----

  function Cut(data: seq<byte>, offset: nat): (end: nat) {
    if offset < |data| then offset else |data|
  }

  lemma Product(i: nat, size: nat)
    ensures i * size >= 0 && (i + 1) * size == i * size + size
  {
  }

  /** std::string::substr of at most `size` bytes from the start of piece `i` on. */
  function ChunkAt(id: string, version: int, data: seq<byte>, size: nat, i: nat): (chunk: Chunk)
    requires i * size < |data|
  {
    Product(i, size);
    Chunk(Metadata(id, version, i, i * size + size >= |data|), data[i * size..Cut(data, i * size + size)])
  }

  ghost predicate PieceOk(id: string, version: int, data: seq<byte>, size: nat, chunks: seq<Chunk>, i: nat)
    requires i < |chunks|
  {
    i * size < |data| && chunks[i] == ChunkAt(id, version, data, size, i)
  }

  /** A video split into pieces of at most `size` bytes, the last one marked. */
  ghost predicate IsSplit(id: string, version: int, data: seq<byte>, size: nat, chunks: seq<Chunk>) {
    && (forall i: nat | i < |chunks| :: PieceOk(id, version, data, size, chunks, i))
    && |data| <= |chunks| * size
  }

  function DataOf(chunks: seq<Chunk>): (data: seq<byte>) {
    if chunks == [] then [] else DataOf(chunks[..|chunks| - 1]) + chunks[|chunks| - 1].data
  }

  lemma {:induction false} SplitPrefix(id: string, version: int, data: seq<byte>, size: nat, chunks: seq<Chunk>, n: nat)
    requires n <= |chunks| && forall i: nat | i < |chunks| :: PieceOk(id, version, data, size, chunks, i)
    ensures n * size >= 0 && DataOf(chunks[..n]) == data[..Cut(data, n * size)]
  {
    if n > 0 {
      var i := n - 1;
      SplitPrefix(id, version, data, size, chunks, i);
      assert PieceOk(id, version, data, size, chunks, i);
      assert chunks[..n][..i] == chunks[..i];
      Product(i, size);
    }
  }

  /** Piece `i` is full and unmarked when another one follows, and else the marked rest. */
  lemma PieceShape(id: string, version: int, data: seq<byte>, size: nat, chunks: seq<Chunk>, i: nat)
    requires size > 0 && IsSplit(id, version, data, size, chunks) && i < |chunks|
    ensures chunks[i].metadata.last <==> i == |chunks| - 1
    ensures 0 < |chunks[i].data| <= size && (i < |chunks| - 1 ==> |chunks[i].data| == size)
  {
    assert PieceOk(id, version, data, size, chunks, i);
    Product(i, size);
    if i + 1 < |chunks| { assert PieceOk(id, version, data, size, chunks, i + 1); }
  }

  /** Nothing is lost, repeated or reordered by splitting; every piece but the last is full,
      no piece is empty, and exactly the last one carries the mark. */
  lemma SplitIsFaithful(id: string, version: int, data: seq<byte>, size: nat, chunks: seq<Chunk>)
    requires size > 0 && IsSplit(id, version, data, size, chunks)
    ensures DataOf(chunks) == data
    ensures forall i | 0 <= i < |chunks| :: chunks[i].metadata.last <==> i == |chunks| - 1
    ensures forall i | 0 <= i < |chunks| :: 0 < |chunks[i].data| <= size
    ensures forall i | 0 <= i < |chunks| - 1 :: |chunks[i].data| == size
  {
    SplitPrefix(id, version, data, size, chunks, |chunks|);
    assert chunks[..|chunks|] == chunks && data[..|data|] == data;
    forall i | 0 <= i < |chunks|
      ensures (chunks[i].metadata.last <==> i == |chunks| - 1) && 0 < |chunks[i].data| <= size
      ensures i < |chunks| - 1 ==> |chunks[i].data| == size
    {
      PieceShape(id, version, data, size, chunks, i);
    }
  }

  lemma SplitNotLonger(id: string, version: int, data: seq<byte>, size: nat, a: seq<Chunk>, b: seq<Chunk>)
    requires IsSplit(id, version, data, size, a) && IsSplit(id, version, data, size, b)
    ensures |b| <= |a|
  {
    assert |a| < |b| ==> PieceOk(id, version, data, size, b, |a|);
  }

  /** Two splits of the same video are the same sequence. */
  lemma SplitUnique(id: string, version: int, data: seq<byte>, size: nat, a: seq<Chunk>, b: seq<Chunk>)
    requires IsSplit(id, version, data, size, a) && IsSplit(id, version, data, size, b)
    ensures a == b
  {
    SplitNotLonger(id, version, data, size, a, b);
    SplitNotLonger(id, version, data, size, b, a);
    forall i: nat | i < |a| ensures a[i] == b[i] {
      assert PieceOk(id, version, data, size, a, i) && PieceOk(id, version, data, size, b, i);
    }
  }

  // ----- applying commands -----

  function PathOf(root: string, c: Chunk): (path: string) {
    Filename(root, c.metadata.videoId, c.metadata.version, c.metadata.sequence)
  }

  /** The chunk and the path a command carries; reading the other arm gives the default. */
  function ChunkIn(cmd: Command): (chunk: Chunk) { if cmd.args.ChunkArgs? then cmd.args.chunk else ZeroChunk }

  function PathIn(cmd: Command): (path: string) { if cmd.args.PathArgs? then cmd.args.path else "" }

  /** The one file a command writes or removes. */
  function Touched(root: string, cmd: Command): (path: string) {
    if cmd.id == UPLOAD then PathOf(root, ChunkIn(cmd)) else PathIn(cmd)
  }

  function Apply(root: string, files: Files, cmd: Command): (after: Files) {
    if cmd.id == UPLOAD then files[Touched(root, cmd) := ChunkIn(cmd)]
    else files - {Touched(root, cmd)}
  }

  /** The steps of a log one after the other, the newest last. */
  function Fold<S, E>(step: (S, E) -> S, s: S, log: seq<E>): (after: S) {
    if log == [] then s else step(Fold(step, s, log[..|log| - 1]), log[|log| - 1])
  }

  lemma {:induction false} FoldConcat<S, E>(step: (S, E) -> S, s: S, a: seq<E>, b: seq<E>)
    ensures Fold(step, s, a + b) == Fold(step, Fold(step, s, a), b)
    decreases |b|
  {
    var c := a + b;
    if b == [] {
      assert c == a;
    } else {
      assert c[..|c| - 1] == a + b[..|b| - 1] && c[|c| - 1] == b[|b| - 1];
      FoldConcat(step, s, a, b[..|b| - 1]);
    }
  }

  function Applying(root: string): (step: (Files, Entry) -> Files) {
    (files: Files, e: Entry) => Apply(root, files, e.command)
  }

  function ApplyAll(root: string, files: Files, log: seq<Entry>): (after: Files) {
    Fold(Applying(root), files, log)
  }

  lemma ApplyPrefix(root: string, files: Files, log: seq<Entry>, i: nat)
    requires i < |log|
    ensures ApplyAll(root, files, log[..i + 1]) == Apply(root, ApplyAll(root, files, log[..i]), log[i].command)
  {
    assert log[..i + 1][..i] == log[..i];
  }

  lemma ApplyAllConcat(root: string, files: Files, a: seq<Entry>, b: seq<Entry>)
    ensures ApplyAll(root, files, a + b) == ApplyAll(root, ApplyAll(root, files, a), b)
  {
    FoldConcat(Applying(root), files, a, b);
  }

  function Find(files: Files, path: string): (found: Option<Chunk>) {
    if path in files then Some(files[path]) else None
  }

  /** What the log leaves at `path`: the effect of the last command that touches it, if any. */
  function LastWord(root: string, log: seq<Entry>, path: string): (word: Option<Option<Chunk>>) {
    if log == [] then None
    else
      var cmd := log[|log| - 1].command;
      if Touched(root, cmd) == path then Some(if cmd.id == UPLOAD then Some(ChunkIn(cmd)) else None)
      else LastWord(root, log[..|log| - 1], path)
  }

  lemma {:induction false} ApplyAllAt(root: string, files: Files, log: seq<Entry>, path: string)
    ensures Find(ApplyAll(root, files, log), path)
         == match LastWord(root, log, path) case None => Find(files, path) case Some(c) => c
    decreases |log|
  {
    if log != [] { ApplyAllAt(root, files, log[..|log| - 1], path); }
  }

  lemma {:induction false} LastWordKnown(root: string, log: seq<Entry>, n: nat, path: string)
    requires n <= |log| && LastWord(root, log[..n], path).Some?
    ensures LastWord(root, log, path).Some?
    decreases |log|
  {
    if n == |log| {
      assert log[..n] == log;
    } else {
      assert log[..|log| - 1][..n] == log[..n];
      LastWordKnown(root, log[..|log| - 1], n, path);
    }
  }

  lemma SameFiles(a: Files, b: Files)
    requires forall p :: Find(a, p) == Find(b, p)
    ensures a == b
  {
    forall p ensures p in a <==> p in b { assert Find(a, p) == Find(b, p); }
    forall p | p in a ensures a[p] == b[p] { assert Find(a, p) == Find(b, p); }
  }

  // ----- replay after crashes -----

  predicate Bounded(ks: seq<nat>, size: nat) {
    forall i | 0 <= i < |ks| :: ks[i] <= size
  }

  /** The files after a process applied the first `ks[0]` entries and crashed, the next one
      started over and applied the first `ks[1]`, and so on. */
  function Replays(root: string, log: seq<Entry>, ks: seq<nat>): (files: Files)
    requires Bounded(ks, |log|)
  {
    if ks == [] then map[]
    else ApplyAll(root, Replays(root, log, ks[..|ks| - 1]), log[..ks[|ks| - 1]])
  }

  lemma {:induction false} ReplaysTouch(root: string, log: seq<Entry>, ks: seq<nat>, path: string)
    requires Bounded(ks, |log|)
    requires path in Replays(root, log, ks)
    ensures LastWord(root, log, path).Some?
    decreases |ks|
  {
    var before := ks[..|ks| - 1];
    var k := ks[|ks| - 1];
    ApplyAllAt(root, Replays(root, log, before), log[..k], path);
    if LastWord(root, log[..k], path).Some? {
      LastWordKnown(root, log, k, path);
    } else {
      assert Find(Replays(root, log, before), path).Some?;
      ReplaysTouch(root, log, before, path);
    }
  }

  /** Recovery converges: after any history of partial replays of a log, replaying all of it
      leaves the same files as applying it once from nothing. */
  lemma ReplayConverges(root: string, log: seq<Entry>, ks: seq<nat>)
    requires Bounded(ks, |log|)
    ensures ApplyAll(root, Replays(root, log, ks), log) == ApplyAll(root, map[], log)
  {
    var files := Replays(root, log, ks);
    forall p ensures Find(ApplyAll(root, files, log), p) == Find(ApplyAll(root, map[], log), p) {
      ApplyAllAt(root, files, log, p);
      ApplyAllAt(root, map[], log, p);
      if p in files { ReplaysTouch(root, log, ks, p); }
    }
    SameFiles(ApplyAll(root, files, log), ApplyAll(root, map[], log));
  }

  /** On the way there it is not monotone: after a crash the replay first puts back what an
      earlier entry wrote over what a later one had written. */
  lemma ReplayGoesBack(root: string, m: Metadata, prior: seq<byte>, later: seq<byte>)
    ensures var up := (d: seq<byte>) => Entry(1, Command(UPLOAD, ChunkArgs(Chunk(m, d))));
            var log := [up(prior), up(later)];
            && Read(Replays(root, log, [2]), root, m.videoId, m.version, m.sequence) == Chunk(m, later)
            && Read(Replays(root, log, [2, 1]), root, m.videoId, m.version, m.sequence) == Chunk(m, prior)
  {
    var e := Entry(1, Command(UPLOAD, ChunkArgs(Chunk(m, prior))));
    var f := Entry(1, Command(UPLOAD, ChunkArgs(Chunk(m, later))));
    var log := [e, f];
    assert [2, 1][..1] == [2] && [2][..0] == [];
    assert log[..2] == [e] + [f] && log[..1] == [] + [e];
  }

  // ----- the history of one store -----

  /** The processes that have worked on the files: each applies entries piece by piece until it
      crashes and the next one starts over. */
  datatype History = Fresh | Crashed(before: History) | Applied(before: History, entries: seq<Entry>)

  /** What the present process has applied. */
  function Since(h: History): (applied: seq<Entry>) {
    match h
    case Fresh => []
    case Crashed(_) => []
    case Applied(before, entries) => Since(before) + entries
  }

  /** How far the processes before the present one came. */
  function Crashes(h: History): (ks: seq<nat>) {
    match h
    case Fresh => []
    case Crashed(before) => Crashes(before) + [|Since(before)|]
    case Applied(before, _) => Crashes(before)
  }

  /** The files survive a crash of the process; whatever is applied is applied to them. */
  function FilesAfter(root: string, h: History): (files: Files) {
    match h
    case Fresh => map[]
    case Crashed(before) => FilesAfter(root, before)
    case Applied(before, entries) => ApplyAll(root, FilesAfter(root, before), entries)
  }

  /** The history up to the start of the present process. */
  function UpToStart(h: History): (earlier: History) {
    if h.Applied? then UpToStart(h.before) else h
  }

  lemma {:induction false} FilesSince(root: string, h: History)
    ensures FilesAfter(root, h) == ApplyAll(root, FilesAfter(root, UpToStart(h)), Since(h))
  {
    if h.Applied? {
      FilesSince(root, h.before);
      ApplyAllConcat(root, FilesAfter(root, UpToStart(h)), Since(h.before), h.entries);
    } else {
    }
  }

  /** Every process has applied a beginning of `log`. */
  ghost predicate SinceWithin(h: History, log: seq<Entry>) {
    Since(h) <= log && (h.Fresh? || SinceWithin(h.before, log))
  }

  lemma {:induction false} CrashesBounded(h: History, log: seq<Entry>)
    requires SinceWithin(h, log)
    ensures Bounded(Crashes(h), |log|)
  {
    if !h.Fresh? { CrashesBounded(h.before, log); }
  }

  lemma CrashReplayed(root: string, h: History, log: seq<Entry>)
    requires Bounded(Crashes(h), |log|) && Since(h) <= log
    ensures Replays(root, log, Crashes(h) + [|Since(h)|]) == ApplyAll(root, Replays(root, log, Crashes(h)), Since(h))
  {
    assert log[..|Since(h)|] == Since(h);
  }

  lemma {:induction false} FilesReplayed(root: string, h: History, log: seq<Entry>)
    requires SinceWithin(h, log)
    ensures Bounded(Crashes(h), |log|)
    ensures FilesAfter(root, h) == ApplyAll(root, Replays(root, log, Crashes(h)), Since(h))
  {
    CrashesBounded(h, log);
    if h.Crashed? {
      FilesReplayed(root, h.before, log);
      CrashReplayed(root, h.before, log);
    } else if h.Applied? {
      FilesReplayed(root, h.before, log);
      ApplyAllConcat(root, Replays(root, log, Crashes(h)), Since(h.before), h.entries);
    } else {
    }
  }

  /** Once a process has applied all that any process before it applied, and in the same order, the
      files are what it alone would have made of an empty store. */
  lemma HistoryConverges(root: string, h: History)
    requires SinceWithin(h, Since(h))
    ensures FilesAfter(root, h) == ApplyAll(root, map[], Since(h))
  {
    FilesReplayed(root, h, Since(h));
    ReplayConverges(root, Since(h), Crashes(h));
  }

  // ----- download -----

  /** ReadFromChunk of a file that is not there parses nothing and returns the zero message. */
  function Read(files: Files, root: string, id: string, version: int, sequence: int): (chunk: Chunk) {
    var path := Filename(root, id, version, sequence);
    if path in files then files[path] else ZeroChunk
  }

  /** The download loop meets its first chunk marked as last at sequence number `count`. */
  ghost predicate EndsAt(files: Files, root: string, id: string, version: int, count: nat) {
    && Read(files, root, id, version, count).metadata.last
    && forall j | 0 <= j < count :: !Read(files, root, id, version, j).metadata.last
  }

  /** The bytes of the chunks 0 to `count`. */
  function Assemble(files: Files, root: string, id: string, version: int, count: nat): (data: seq<byte>) {
    if count == 0 then Read(files, root, id, version, 0).data
    else Assemble(files, root, id, version, count - 1) + Read(files, root, id, version, count).data
  }

  /** `at[i]` is where the log holds chunk `i` of the upload, and nothing later in the log
      touches that chunk's file. Other commands may stand anywhere in between. */
  ghost predicate LatestUpload(root: string, log: seq<Entry>, chunks: seq<Chunk>, at: seq<nat>) {
    && |at| == |chunks|
    && (forall i | 0 <= i < |at| :: at[i] < |log| && log[at[i]].command == Command(UPLOAD, ChunkArgs(chunks[i])))
    && (forall i, j | 0 <= i < |at| && at[i] < j < |log| :: Touched(root, log[j].command) != PathOf(root, chunks[i]))
  }

  lemma LastWordHere(root: string, log: seq<Entry>, path: string)
    requires log != [] && log[|log| - 1].command.id == UPLOAD && Touched(root, log[|log| - 1].command) == path
    ensures LastWord(root, log, path) == Some(Some(ChunkIn(log[|log| - 1].command)))
  {
  }

  lemma {:induction false} LastWordIs(root: string, log: seq<Entry>, path: string, n: nat)
    requires n < |log| && Touched(root, log[n].command) == path && log[n].command.id == UPLOAD
    requires forall j | n < j < |log| :: Touched(root, log[j].command) != path
    ensures LastWord(root, log, path) == Some(Some(ChunkIn(log[n].command)))
    decreases |log|
  {
    if n == |log| - 1 {
      LastWordHere(root, log, path);
    } else {
      LastWordIs(root, log[..|log| - 1], path, n);
    }
  }

  lemma UploadReadable(root: string, files: Files, log: seq<Entry>, chunks: seq<Chunk>, at: seq<nat>, i: nat)
    requires LatestUpload(root, log, chunks, at) && i < |chunks|
    ensures Find(ApplyAll(root, files, log), PathOf(root, chunks[i])) == Some(chunks[i])
  {
    assert log[at[i]].command == Command(UPLOAD, ChunkArgs(chunks[i]));
    LastWordIs(root, log, PathOf(root, chunks[i]), at[i]);
    ApplyAllAt(root, files, log, PathOf(root, chunks[i]));
  }

  lemma {:induction false} AssembleChunks(files: Files, root: string, id: string, version: int, chunks: seq<Chunk>,
                                          n: nat)
    requires n < |chunks| && forall i | 0 <= i < |chunks| :: Read(files, root, id, version, i) == chunks[i]
    ensures Assemble(files, root, id, version, n) == DataOf(chunks[..n + 1])
  {
    if n == 0 {
      assert chunks[..1][..0] == [] && chunks[..1] == [chunks[0]];
      assert [] + chunks[0].data == chunks[0].data;
    } else {
      AssembleChunks(files, root, id, version, chunks, n - 1);
      assert chunks[..n + 1][..n] == chunks[..n];
    }
  }

  /** Upload and download round trip: once a replica, whatever its files were before, has
      applied a log whose latest upload of (id, version) is `data`, the download loop ends
      and returns exactly those bytes. */
  lemma DownloadReturnsUpload(root: string, files: Files, log: seq<Entry>, id: string, version: int,
                              data: seq<byte>, size: nat, chunks: seq<Chunk>, at: seq<nat>)
    requires size > 0 && data != [] && IsSplit(id, version, data, size, chunks) && LatestUpload(root, log, chunks, at)
    ensures |chunks| > 0
    ensures EndsAt(ApplyAll(root, files, log), root, id, version, |chunks| - 1)
    ensures Assemble(ApplyAll(root, files, log), root, id, version, |chunks| - 1) == data
  {
    var after := ApplyAll(root, files, log);
    SplitIsFaithful(id, version, data, size, chunks);
    forall i | 0 <= i < |chunks| ensures Read(after, root, id, version, i) == chunks[i] {
      assert PieceOk(id, version, data, size, chunks, i);
      UploadReadable(root, files, log, chunks, at, i);
    }
    AssembleChunks(after, root, id, version, chunks, |chunks| - 1);
    assert chunks[..|chunks|] == chunks;
  }

  /** Writing one chunk leaves every other chunk of every video as it was. */
  lemma WriteTouchesOneChunk(root: string, files: Files, c: Chunk, id: string, version: int, sequence: int)
    ensures Read(Apply(root, files, Command(UPLOAD, ChunkArgs(c))), root, id, version, sequence)
         == if c.metadata.videoId == id && c.metadata.version == version && c.metadata.sequence == sequence then c
            else Read(files, root, id, version, sequence)
  {
    if PathOf(root, c) == Filename(root, id, version, sequence) {
      FilenameInjective(root, c.metadata.videoId, c.metadata.version, c.metadata.sequence, id, version, sequence);
    }
  }
}
