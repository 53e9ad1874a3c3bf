/** What reading the log file back yields.

    RestoreLog parses every record into one and the same message object, and parsing a
    delimited protobuf record merges into the object without clearing it. A field that holds
    its proto3 default is absent from the record, so the object keeps the previous value. */
module Restore {
  import opened RaftTypes

  const ZeroChunk := Chunk(Metadata("", 0, 0, false), [])
  const ZeroEntry := Entry(0, Command(UPLOAD, NoArgs))

  function OverlayChunk(prior: Chunk, c: Chunk): (merged: Chunk) {
    Chunk(
      Metadata(
        if c.metadata.videoId == "" then prior.metadata.videoId else c.metadata.videoId,
        if c.metadata.version == 0 then prior.metadata.version else c.metadata.version,
        if c.metadata.sequence == 0 then prior.metadata.sequence else c.metadata.sequence,
        c.metadata.last || prior.metadata.last),
      if c.data == [] then prior.data else c.data)
  }

  /** Merging into another arm of the oneof clears it first; into the same arm it merges. */
  function OverlayArgs(prior: Args, a: Args): (merged: Args) {
    match a
    case NoArgs => prior
    case ChunkArgs(c) => ChunkArgs(OverlayChunk(if prior.ChunkArgs? then prior.chunk else ZeroChunk, c))
    case PathArgs(p) => PathArgs(if p == "" && prior.PathArgs? then prior.path else p)
  }

  function Overlay(prior: Entry, e: Entry): (merged: Entry) {
    Entry(
      if e.term == 0 then prior.term else e.term,
      Command(if e.command.id == UPLOAD then prior.command.id else e.command.id,
              OverlayArgs(prior.command.args, e.command.args)))
  }

  /** The entries RestoreLog returns when the file holds `es` and the message starts as `prior`. */
  function ReadBack(prior: Entry, es: seq<Entry>): (entries: seq<Entry>)
    decreases |es|
  {
    if es == [] then []
    else var e := Overlay(prior, es[0]); [e] + ReadBack(e, es[1..])
  }

  function RestoredLog(mode: Mode, file: seq<Entry>): (log: seq<Entry>) {
    if mode == AsWritten then ReadBack(ZeroEntry, file) else file
  }

  predicate KeepsChunkFields(prior: Chunk, c: Chunk) {
    && (c.metadata.videoId == "" ==> prior.metadata.videoId == "")
    && (c.metadata.version == 0 ==> prior.metadata.version == 0)
    && (c.metadata.sequence == 0 ==> prior.metadata.sequence == 0)
    && (prior.metadata.last ==> c.metadata.last)
    && (c.data == [] ==> prior.data == [])
  }

  /** No field goes from a set value back to its default from one entry to the next. */
  predicate KeepsFields(prior: Entry, e: Entry) {
    && (e.term == 0 ==> prior.term == 0)
    && (prior.command.id == DELETE ==> e.command.id == DELETE)
    && (e.command.args.NoArgs? ==> prior.command.args.NoArgs?)
    && (e.command.args.ChunkArgs? && prior.command.args.ChunkArgs? ==>
          KeepsChunkFields(prior.command.args.chunk, e.command.args.chunk))
    && (e.command.args == PathArgs("") && prior.command.args.PathArgs? ==> prior.command.args == PathArgs(""))
  }

  predicate NoFieldFallsBack(es: seq<Entry>) {
    forall i | 0 < i < |es| :: KeepsFields(es[i - 1], es[i])
  }

  /** D9: the log read back equals the log written exactly when no field of an entry falls
      back to its default where the entry before has it set. */
  lemma {:induction false} ReadBackExactIff(prior: Entry, es: seq<Entry>)
    ensures ReadBack(prior, es) == es
       <==> (es == [] || (KeepsFields(prior, es[0]) && NoFieldFallsBack(es)))
    decreases |es|
  {
    if es != [] {
      var rest := es[1..];
      assert Overlay(prior, es[0]) == es[0] <==> KeepsFields(prior, es[0]);
      var r := ReadBack(prior, es);
      assert r[0] == Overlay(prior, es[0]);
      assert r[1..] == ReadBack(Overlay(prior, es[0]), rest);
      ReadBackExactIff(es[0], rest);
      assert es == [es[0]] + rest;
      if rest != [] { FallsBackSplit(es); }
    }
  }

  lemma FallsBackSplit(es: seq<Entry>)
    requires |es| > 1
    ensures NoFieldFallsBack(es) <==> KeepsFields(es[0], es[1]) && NoFieldFallsBack(es[1..])
  {
    var rest := es[1..];
    if NoFieldFallsBack(es) {
      assert KeepsFields(es[1 - 1], es[1]);
      forall i | 0 < i < |rest| ensures KeepsFields(rest[i - 1], rest[i]) {
        assert KeepsFields(es[i + 1 - 1], es[i + 1]);
      }
    }
    if KeepsFields(es[0], es[1]) && NoFieldFallsBack(rest) {
      forall i | 0 < i < |es| ensures KeepsFields(es[i - 1], es[i]) {
        if i > 1 { assert KeepsFields(rest[i - 1 - 1], rest[i - 1]); }
      }
    }
  }

  /** The log of any node restores exactly if and only if no field falls back. */
  lemma RestoreExactIff(file: seq<Entry>)
    ensures RestoredLog(AsWritten, file) == RestoredLog(Repaired, file) <==> NoFieldFallsBack(file)
  {
    ReadBackExactIff(ZeroEntry, file);
  }

  /** D9: a two-chunk upload followed by the first chunk of another one comes back wrong. */
  lemma RestoreMixesUploads(d: seq<byte>)
    requires d != []
    ensures var up := (v: string, n: int, last: bool) =>
              Entry(1, Command(UPLOAD, ChunkArgs(Chunk(Metadata(v, 1, n, last), d))));
            var file := [up("a", 0, false), up("a", 1, true), up("b", 0, false)];
            RestoredLog(AsWritten, file) == [up("a", 0, false), up("a", 1, true), up("b", 1, true)]
  {
    var e0 := Entry(1, Command(UPLOAD, ChunkArgs(Chunk(Metadata("a", 1, 0, false), d))));
    var e1 := Entry(1, Command(UPLOAD, ChunkArgs(Chunk(Metadata("a", 1, 1, true), d))));
    var e2 := Entry(1, Command(UPLOAD, ChunkArgs(Chunk(Metadata("b", 1, 0, false), d))));
    var r2 := Entry(1, Command(UPLOAD, ChunkArgs(Chunk(Metadata("b", 1, 1, true), d))));
    assert Overlay(ZeroEntry, e0) == e0 && Overlay(e0, e1) == e1 && Overlay(e1, e2) == r2;
    assert [e2][1..] == [] && [e1, e2][1..] == [e2] && [e0, e1, e2][1..] == [e1, e2];
    assert ReadBack(e1, [e2]) == [r2];
    assert ReadBack(e0, [e1, e2]) == [e1, r2];
  }
}
