/** The objects around the chunk files: the chunk manager, the consumer of committed commands,
    and the upload and download front ends. */
module ChunkServer {
  import opened RaftTypes
  import opened Restore
  import opened Paths
  import opened ChunkStore
  import opened Handlers
  import Node

  // ----- chunk_manager.cpp -----

  class ChunkManager {
    const address: string
    const dir: string
    const maxChunkSize: nat
    var files: Files

    constructor (address: string, dir: string, chunkSize: nat)
      ensures this.address == address && this.dir == dir && maxChunkSize == chunkSize && files == map[]
    {
      this.address, this.dir, this.maxChunkSize := address, dir, chunkSize;
      files := map[];
    }

    function Root(): (root: string) { dir + "/" + address }

    /** A chunk size of zero divides by zero. */
    method CreateChunks(id: string, version: int, data: seq<byte>) returns (chunks: seq<Chunk>)
      requires maxChunkSize > 0
      ensures IsSplit(id, version, data, maxChunkSize, chunks)
    {
      chunks := [];
      var offset := 0;
      var chunkCount := (|data| + maxChunkSize - 1) / maxChunkSize;
      for i := 0 to chunkCount
        invariant |chunks| == i && offset == i * maxChunkSize
        invariant forall j: nat | j < i :: PieceOk(id, version, data, maxChunkSize, chunks, j)
      {
        CeilInside(|data|, maxChunkSize, chunkCount, i);
        Product(i, maxChunkSize);
        ghost var before := chunks;
        var metadata := Metadata(id, version, i, i == chunkCount - 1);
        var chunk := Chunk(metadata, data[offset..Cut(data, offset + maxChunkSize)]);
        chunks := chunks + [chunk];
        offset := offset + maxChunkSize;
        forall j: nat | j < i + 1 ensures PieceOk(id, version, data, maxChunkSize, chunks, j) {
          if j < i { assert PieceOk(id, version, data, maxChunkSize, before, j); }
        }
      }
    }

    method WriteToChunk(chunk: Chunk)
      modifies this`files
      ensures files == Apply(Root(), old(files), Command(UPLOAD, ChunkArgs(chunk)))
      ensures files == var m := chunk.metadata;
                       old(files)[Filename(Root(), m.videoId, m.version, m.sequence) := chunk]
    {
      var m := chunk.metadata;
      files := files[Filename(Root(), m.videoId, m.version, m.sequence) := chunk];
    }

    method DeleteChunk(path: string)
      modifies this`files
      ensures files == Apply(Root(), old(files), Command(DELETE, PathArgs(path)))
      ensures files == old(files) - {path}
    {
      if path in files { files := files - {path}; }
    }

    method ReadFromChunk(id: string, version: int, sequence: int) returns (chunk: Chunk)
      ensures chunk == Read(files, Root(), id, version, sequence)
    {
      var path := Filename(Root(), id, version, sequence);
      if path in files { chunk := files[path]; } else { chunk := ZeroChunk; }
    }
  }

  lemma CeilInside(n: nat, size: nat, count: nat, i: nat)
    requires size > 0 && i < count && n <= count * size < n + size
    ensures i * size < n && (i * size + size >= n <==> i == count - 1)
  {
    Product(count - 1, size);
    Product(i, size);
  }

  // ----- commit_channel.cpp, the consumer -----

  method ApplyCommit(manager: ChunkManager, commit: Entry)
    modifies manager`files
    ensures manager.files == Apply(manager.Root(), old(manager.files), commit.command)
    ensures forall chunk | commit.command == Command(UPLOAD, ChunkArgs(chunk)) ::
              var m := chunk.metadata;
              manager.files == old(manager.files)[Filename(manager.Root(), m.videoId, m.version, m.sequence) := chunk]
    ensures forall path | commit.command == Command(DELETE, PathArgs(path)) ::
              manager.files == old(manager.files) - {path}
  {
    match commit.command.id {
      case UPLOAD => manager.WriteToChunk(ChunkIn(commit.command));
      case DELETE => manager.DeleteChunk(PathIn(commit.command));
    }
  }

  /** One round of the consumer loop. */
  method ConsumeOne(channel: Node.CommitChannel, manager: ChunkManager)
    requires channel.commitQueue != []
    modifies channel`commitQueue, manager`files
    ensures channel.commitQueue == old(channel.commitQueue)[1..]
    ensures manager.files == Apply(manager.Root(), old(manager.files), old(channel.commitQueue)[0].command)
  {
    var commit := channel.Pop();
    ApplyCommit(manager, commit);
  }

  /** The consumer loop, until the queue it was woken for is empty. */
  method ConsumeEvents(channel: Node.CommitChannel, manager: ChunkManager)
    modifies channel`commitQueue, manager`files
    ensures channel.commitQueue == []
    ensures manager.files == ApplyAll(manager.Root(), old(manager.files), old(channel.commitQueue))
  {
    ghost var queue, files, i := channel.commitQueue, manager.files, 0;
    while channel.commitQueue != []
      invariant 0 <= i <= |queue| && channel.commitQueue == queue[i..]
      invariant manager.files == ApplyAll(manager.Root(), files, queue[..i])
      decreases |channel.commitQueue|
    {
      ConsumeOne(channel, manager);
      ApplyPrefix(manager.Root(), files, queue, i);
      i := i + 1;
    }
    assert queue[..i] == queue;
  }

  // ----- chunk_server.cpp -----

  function UploadEntry(term: nat, chunk: Chunk): (entry: Entry) {
    Entry(term, Command(UPLOAD, ChunkArgs(chunk)))
  }

  /** The state after submitting an entry for each chunk. */
  function Submitted(s: NodeState, chunks: seq<Chunk>): (after: NodeState) {
    if chunks == [] then s
    else Submit(Submitted(s, chunks[..|chunks| - 1]), UploadEntry(s.term, chunks[|chunks| - 1]))
  }

  /** A leader's log grows by the chunks, in order and under its term, in memory and on disk,
      and nothing else changes; anyone else drops them all. */
  lemma {:induction false} SubmittedAppends(s: NodeState, chunks: seq<Chunk>)
    ensures var t := Submitted(s, chunks);
            if s.role == Leader then
              && t == s.(log := t.log, disk := s.disk.(log := t.disk.log))
              && |t.log| == |s.log| + |chunks| && s.log <= t.log
              && t.disk.log == s.disk.log + t.log[|s.log|..]
              && forall i | 0 <= i < |chunks| :: t.log[|s.log| + i] == UploadEntry(s.term, chunks[i])
            else t == s
  {
    if chunks != [] {
      SubmittedAppends(s, chunks[..|chunks| - 1]);
      var u, e := Submitted(s, chunks[..|chunks| - 1]), UploadEntry(s.term, chunks[|chunks| - 1]);
      if s.role == Leader { assert (u.log + [e])[|s.log|..] == u.log[|s.log|..] + [e]; }
    }
  }

  /** The front end reports success whether or not the node is the leader. */
  method Upload(cm: Node.ConcensusModule, manager: ChunkManager, id: string, version: int, data: seq<byte>)
    returns (success: bool, ghost chunks: seq<Chunk>)
    requires cm.Valid() && manager.maxChunkSize > 0
    modifies cm.log, cm.snapshot
    ensures cm.Valid() && success && IsSplit(id, version, data, manager.maxChunkSize, chunks)
    ensures cm.State() == Submitted(old(cm.State()), chunks)
  {
    var pieces := manager.CreateChunks(id, version, data);
    chunks := pieces;
    for i := 0 to |pieces|
      invariant cm.Valid()
      invariant cm.State() == Submitted(old(cm.State()), chunks[..i])
    {
      cm.Submit(UploadEntry(cm.currentTerm, pieces[i]));
      assert pieces[..i + 1][..i] == pieces[..i];
    }
    assert pieces[..|pieces|] == pieces;
    success := true;
  }

  /** Without a chunk marked as last the loop never ends. */
  method Download(manager: ChunkManager, id: string, version: int, ghost count: nat) returns (data: seq<byte>)
    requires EndsAt(manager.files, manager.Root(), id, version, count)
    ensures data == Assemble(manager.files, manager.Root(), id, version, count)
  {
    var last, sequence := false, 0;
    data := [];
    while !last
      invariant 0 <= sequence <= count + 1 && (last <==> sequence == count + 1)
      invariant data == if sequence == 0 then [] else Assemble(manager.files, manager.Root(), id, version, sequence - 1)
      decreases count + 1 - sequence
    {
      var chunk := manager.ReadFromChunk(id, version, sequence);
      assert [] + chunk.data == chunk.data;
      data := data + chunk.data;
      last := chunk.metadata.last;
      sequence := sequence + 1;
    }
  }
}
