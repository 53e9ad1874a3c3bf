/** The bytes of the log file: length-delimited records one after the other. */
module Framing {
  import opened RaftTypes
  import opened Restore

  /** How an entry becomes a payload, and how a payload is merged into a message object. */
  datatype Codec = Codec(encode: Entry -> seq<byte>, merge: (Entry, seq<byte>) -> Option<Entry>)

  ghost predicate Faithful(c: Codec) {
    forall prior, e {:trigger c.merge(prior, c.encode(e))} :: c.merge(prior, c.encode(e)) == Some(Overlay(prior, e))
  }

  /** Every injective encoding has a merge that makes it faithful. */
  lemma InjectiveIsFaithful(encode: Entry -> seq<byte>) returns (c: Codec)
    requires forall d, e {:trigger encode(d), encode(e)} :: encode(d) == encode(e) ==> d == e
    ensures c.encode == encode && Faithful(c)
  {
    c := Codec(encode, (prior, s) =>
      if exists e :: encode(e) == s then var e :| encode(e) == s; Some(Overlay(prior, e)) else None);
  }

  // ----- lengths -----

  /** Base-128 digits, least significant first, with the high bit on all but the last. */
  function Varint(n: nat): (s: seq<byte>)
    ensures s != []
  {
    if n < 128 then [n as byte] else [(n % 128 + 128) as byte] + Varint(n / 128)
  }

  /** The number at the start of `s` and how many bytes it takes, or None at a premature end. */
  function ReadVarint(s: seq<byte>): (r: Option<(nat, nat)>)
    ensures r.Some? ==> 1 <= r.value.1 <= |s|
  {
    if s == [] then None
    else if s[0] < 128 then Some((s[0] as nat, 1))
    else match ReadVarint(s[1..])
      case None => None
      case Some((v, k)) => Some((s[0] as nat - 128 + 128 * v, k + 1))
  }

  lemma {:induction false} VarintRoundTrip(n: nat, rest: seq<byte>)
    ensures ReadVarint(Varint(n) + rest) == Some((n, |Varint(n)|))
    decreases n
  {
    var s := Varint(n) + rest;
    if n >= 128 {
      VarintRoundTrip(n / 128, rest);
      assert s[1..] == Varint(n / 128) + rest;
    }
  }

  lemma {:induction false} VarintTruncated(n: nat, k: nat)
    requires k < |Varint(n)|
    ensures ReadVarint(Varint(n)[..k]) == None
    decreases n
  {
    if n >= 128 && k > 0 {
      VarintTruncated(n / 128, k - 1);
      assert Varint(n)[..k][1..] == Varint(n / 128)[..k - 1];
    }
  }

  // ----- records -----

  function Frame(c: Codec, e: Entry): (s: seq<byte>)
    ensures s != []
  {
    Varint(|c.encode(e)|) + c.encode(e)
  }

  function Frames(c: Codec, es: seq<Entry>): (bytes: seq<byte>) {
    if es == [] then [] else Frame(c, es[0]) + Frames(c, es[1..])
  }

  /** One record merged into `prior`, and its length in bytes. */
  function ParseOne(c: Codec, prior: Entry, s: seq<byte>): (r: Option<(Entry, nat)>)
    ensures r.Some? ==> 1 <= r.value.1 <= |s|
  {
    match ReadVarint(s)
    case None => None
    case Some((n, k)) =>
      if k + n > |s| then None
      else match c.merge(prior, s[k..k + n])
        case None => None
        case Some(e) => Some((e, k + n))
  }

  lemma ParseFrame(c: Codec, prior: Entry, e: Entry, rest: seq<byte>)
    requires Faithful(c)
    ensures ParseOne(c, prior, Frame(c, e) + rest) == Some((Overlay(prior, e), |Frame(c, e)|))
  {
    var p := c.encode(e);
    var v := Varint(|p|);
    VarintRoundTrip(|p|, p + rest);
    var s := Frame(c, e) + rest;
    assert s == v + (p + rest);
    assert s[|v|..|v| + |p|] == p;
  }

  lemma ParseTruncated(c: Codec, prior: Entry, e: Entry, k: nat)
    requires k < |Frame(c, e)|
    ensures ParseOne(c, prior, Frame(c, e)[..k]) == None
  {
    var p := c.encode(e);
    var v := Varint(|p|);
    var s := Frame(c, e)[..k];
    if k < |v| {
      VarintTruncated(|p|, k);
      assert s == v[..k];
    } else {
      VarintRoundTrip(|p|, p[..k - |v|]);
      assert s == v + p[..k - |v|];
    }
  }

  // ----- files -----

  /** The entries read until a record cannot be parsed. The source keeps one message object for
      all records; the repair uses a fresh one for each. */
  function ParseAll(mode: Mode, c: Codec, prior: Entry, s: seq<byte>): (entries: seq<Entry>)
    decreases |s|
  {
    match ParseOne(c, prior, s)
    case None => []
    case Some((e, n)) => [e] + ParseAll(mode, c, if mode == AsWritten then e else ZeroEntry, s[n..])
  }

  lemma OverlayZero(e: Entry)
    ensures Overlay(ZeroEntry, e) == e
  {
  }

  lemma {:induction false} ParseWritten(c: Codec, prior: Entry, es: seq<Entry>)
    requires Faithful(c)
    ensures ParseAll(AsWritten, c, prior, Frames(c, es)) == ReadBack(prior, es)
    decreases |es|
  {
    if es == [] {
      assert ReadVarint([]) == None;
    } else {
      var rest := Frames(c, es[1..]);
      ParseFrame(c, prior, es[0], rest);
      assert (Frame(c, es[0]) + rest)[|Frame(c, es[0])|..] == rest;
      ParseWritten(c, Overlay(prior, es[0]), es[1..]);
    }
  }

  lemma {:induction false} ParseFresh(c: Codec, es: seq<Entry>)
    requires Faithful(c)
    ensures ParseAll(Repaired, c, ZeroEntry, Frames(c, es)) == es
    decreases |es|
  {
    if es == [] {
      assert ReadVarint([]) == None;
    } else {
      var rest := Frames(c, es[1..]);
      ParseFrame(c, ZeroEntry, es[0], rest);
      OverlayZero(es[0]);
      assert (Frame(c, es[0]) + rest)[|Frame(c, es[0])|..] == rest;
      ParseFresh(c, es[1..]);
    }
  }

  lemma CutLater(f: seq<byte>, rest: seq<byte>, k: nat)
    requires |f| <= k <= |f| + |rest|
    ensures (f + rest)[..k] == f + rest[..k - |f|]
    ensures (f + rest)[|f|..] == rest && (f + rest[..k - |f|])[|f|..] == rest[..k - |f|]
  {
  }

  /** A record in front is parsed first. */
  lemma ParseStep(mode: Mode, c: Codec, prior: Entry, e: Entry, rest: seq<byte>)
    requires Faithful(c)
    ensures ParseAll(mode, c, prior, Frame(c, e) + rest)
         == [Overlay(prior, e)] + ParseAll(mode, c, if mode == AsWritten then Overlay(prior, e) else ZeroEntry, rest)
  {
    ParseFrame(c, prior, e, rest);
    assert (Frame(c, e) + rest)[|Frame(c, e)|..] == rest;
  }

  lemma ParseCut(mode: Mode, c: Codec, prior: Entry, e: Entry, rest: seq<byte>, k: nat)
    requires k < |Frame(c, e)|
    ensures k <= |Frame(c, e) + rest| && ParseAll(mode, c, prior, (Frame(c, e) + rest)[..k]) == []
  {
    ParseTruncated(c, prior, e, k);
    assert (Frame(c, e) + rest)[..k] == Frame(c, e)[..k];
  }

  /** A file cut off at any byte restores a beginning of what the whole file restores. */
  lemma {:induction false} TruncatedRestore(mode: Mode, c: Codec, prior: Entry, es: seq<Entry>, k: nat)
    requires Faithful(c) && k <= |Frames(c, es)|
    ensures ParseAll(mode, c, prior, Frames(c, es)[..k]) <= ParseAll(mode, c, prior, Frames(c, es))
    decreases |es|
  {
    hide ParseAll, Overlay, Frame;
    if es != [] {
      var f, rest := Frame(c, es[0]), Frames(c, es[1..]);
      if k < |f| {
        ParseCut(mode, c, prior, es[0], rest, k);
      } else {
        var e := Overlay(prior, es[0]);
        var next := if mode == AsWritten then e else ZeroEntry;
        CutLater(f, rest, k);
        ParseStep(mode, c, prior, es[0], rest);
        ParseStep(mode, c, prior, es[0], rest[..k - |f|]);
        TruncatedRestore(mode, c, next, es[1..], k - |f|);
      }
    }
  }

  // ----- any sequence of writes -----

  datatype Write = Write(entries: seq<Entry>, append: bool)

  /** The bytes of the file after the writes, each one either appending or truncating first. */
  function FileAfter(c: Codec, writes: seq<Write>): (bytes: seq<byte>) {
    if writes == [] then []
    else
      var last := writes[|writes| - 1];
      (if last.append then FileAfter(c, writes[..|writes| - 1]) else []) + Frames(c, last.entries)
  }

  /** The entries the writes mean to leave behind. */
  function Intended(writes: seq<Write>): (entries: seq<Entry>) {
    if writes == [] then []
    else
      var last := writes[|writes| - 1];
      (if last.append then Intended(writes[..|writes| - 1]) else []) + last.entries
  }

  lemma {:induction false} FramesConcat(c: Codec, a: seq<Entry>, b: seq<Entry>)
    ensures Frames(c, a + b) == Frames(c, a) + Frames(c, b)
    decreases |a|
  {
    if a == [] {
      assert a + b == b;
    } else {
      FramesConcat(c, a[1..], b);
      assert (a + b)[1..] == a[1..] + b;
      assert Frame(c, a[0]) + (Frames(c, a[1..]) + Frames(c, b)) == (Frame(c, a[0]) + Frames(c, a[1..])) + Frames(c, b);
    }
  }

  lemma FramesPush(c: Codec, es: seq<Entry>, e: Entry)
    ensures Frames(c, es + [e]) == Frames(c, es) + Frame(c, e)
  {
    FramesConcat(c, es, [e]);
    assert [e][1..] == [] && Frame(c, e) + [] == Frame(c, e);
  }

  lemma {:induction false} FileHoldsIntended(c: Codec, writes: seq<Write>)
    ensures FileAfter(c, writes) == Frames(c, Intended(writes))
    decreases |writes|
  {
    if writes != [] {
      var before, last := writes[..|writes| - 1], writes[|writes| - 1];
      if last.append {
        FileHoldsIntended(c, before);
        FramesConcat(c, Intended(before), last.entries);
      } else {
        assert [] + last.entries == last.entries;
        assert [] + Frames(c, last.entries) == Frames(c, last.entries);
      }
    }
  }

  /** Log file round trip: whatever was appended and truncated, a fresh message per record
      restores the intended log, the message reused as written restores it exactly when no
      field falls back, and a file cut off at any byte restores a beginning of it. */
  lemma LogFileRoundTrip(c: Codec, writes: seq<Write>, k: nat)
    requires Faithful(c) && k <= |FileAfter(c, writes)|
    ensures ParseAll(Repaired, c, ZeroEntry, FileAfter(c, writes)) == Intended(writes)
    ensures ParseAll(AsWritten, c, ZeroEntry, FileAfter(c, writes)) == Intended(writes) <==>
            NoFieldFallsBack(Intended(writes))
    ensures ParseAll(Repaired, c, ZeroEntry, FileAfter(c, writes)[..k]) <= Intended(writes)
    ensures ParseAll(AsWritten, c, ZeroEntry, FileAfter(c, writes)[..k]) <= RestoredLog(AsWritten, Intended(writes))
  {
    FileHoldsIntended(c, writes);
    ParseFresh(c, Intended(writes));
    ParseWritten(c, ZeroEntry, Intended(writes));
    RestoreExactIff(Intended(writes));
    TruncatedRestore(Repaired, c, ZeroEntry, Intended(writes), k);
    TruncatedRestore(AsWritten, c, ZeroEntry, Intended(writes), k);
  }
}
