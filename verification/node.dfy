/** The objects of one node, with the methods as written. Each method is proved against the
    `AsWritten` function of the same handler. */
module Node {
  import opened RaftTypes
  import opened LogMerge
  import opened Commitment
  import opened Restore
  import opened Framing
  import opened Handlers
  import Departures
  import Rules

  // ----- command_log.cpp -----

  class CommandLog {
    var entries: seq<Entry>
    var commitIndex: int
    var lastApplied: int
    var nextIndex: map<string, int>
    var matchIndex: map<string, int>

    constructor (peers: seq<string>)
      ensures entries == [] && commitIndex == -1 && lastApplied == -1
      ensures nextIndex == PointAll(peers, 0) && matchIndex == PointAll(peers, -1)
    {
      entries, commitIndex, lastApplied := [], -1, -1;
      nextIndex, matchIndex := map[], map[];
      new;
      for i := 0 to |peers|
        invariant entries == [] && commitIndex == -1 && lastApplied == -1
        invariant nextIndex == PointAll(peers[..i], 0) && matchIndex == PointAll(peers[..i], -1)
      {
        nextIndex := nextIndex[peers[i] := 0];
        matchIndex := matchIndex[peers[i] := -1];
        PointAllNext(peers, i, 0);
        PointAllNext(peers, i, -1);
      }
      assert peers[..|peers|] == peers;
    }

    method AppendLog(entry: Entry)
      modifies this`entries
      ensures entries == old(entries) + [entry]
    {
      entries := entries + [entry];
    }

    method InsertLog(idx: int, newEntries: seq<Entry>)
      requires 0 <= idx <= |entries|
      modifies this`entries
      ensures entries == LogMerge.InsertLog(old(entries), idx, newEntries)
      ensures InsertedAt(old(entries), idx, newEntries, entries)
    {
      InsertedByIndex(entries, idx, newEntries);
      entries := entries[..idx] + newEntries + entries[idx..];
    }
  }

  lemma PointAllNext(peers: seq<string>, i: nat, value: int)
    requires i < |peers|
    ensures PointAll(peers[..i + 1], value) == PointAll(peers[..i], value)[peers[i] := value]
  {
    assert peers[..i + 1][..i] == peers[..i];
  }

  lemma Longer(before: seq<Entry>, entries: seq<Entry>, i: nat)
    requires i < |entries|
    ensures before + entries[..i + 1] == before + entries[..i] + [entries[i]]
  {
  }

  lemma VoteAnswered(s: NodeState, req: VoteReq)
    ensures var (t, rep) := Handlers.RequestVote(AsWritten, s, req);
            && rep.term == t.term == Rules.Max(s.term, req.term) && t.log == s.log
            && (Departures.FitsInt(s.log) ==>
                  forall theirs | Rules.SentWith(req, theirs) && Departures.FitsInt(theirs) ::
                    rep.granted <==> Rules.VoteIsFree(s, req.term, req.candidate)
                                     && Rules.Wins(AsWritten, theirs, s.log))
  {
    Rules.VoterAfter(AsWritten, s, req);
    if Departures.FitsInt(s.log) {
      forall theirs | Rules.SentWith(req, theirs) && Departures.FitsInt(theirs)
        ensures Handlers.RequestVote(AsWritten, s, req).1.granted
           <==> Rules.VoteIsFree(s, req.term, req.candidate) && Rules.Wins(AsWritten, theirs, s.log)
      {
        Rules.GrantedIff(AsWritten, s, req, theirs);
      }
    }
    hide Handlers.RequestVote;
  }

  lemma MergeFrom(log: seq<Entry>, prev: int, entries: seq<Entry>, k: nat)
    requires -1 <= prev < |log| && k == Agreeing(log, prev + 1, entries)
    ensures var merged := Merge(AsWritten, log, prev, entries);
            if k == |entries| then merged == log
            else merged == LogMerge.InsertLog(log, prev + 1 + k, entries[k..]) && |merged| > |log|
  {
  }

  lemma TakenMerged(s: NodeState, req: AppendReq)
    requires Takes(s, req)
    ensures MergedInto(s.log, req.prevIndex + 1, req.entries, Taken(AsWritten, s, req))
  {
    hide MergedInto, Merge;
    MergedAsWritten(s.log, req.prevIndex, req.entries);
  }

  lemma AppendMerged(s: NodeState, req: AppendReq)
    requires InBounds(AsWritten, s, req) && Takes(s, req)
    ensures MergedInto(s.log, req.prevIndex + 1, req.entries, Handlers.AppendEntries(AsWritten, s, req).0.log)
  {
    hide MergedInto, Taken, Handlers.AppendEntries, InBounds, Rules.Follows;
    Rules.FollowFields(AsWritten, s, req);
    TakenMerged(s, req);
  }

  lemma AppendAnswered(s: NodeState, req: AppendReq)
    requires InBounds(AsWritten, s, req)
    ensures var (t, rep) := Handlers.AppendEntries(AsWritten, s, req);
            && rep.term == t.term == Rules.Max(s.term, req.term)
            && (rep.success <==> Rules.FollowsCheck(s, req))
            && (req.term >= s.term ==> t.role == Follower)
            && (rep.success && s.commit == s.applied ==> Rules.Follows(s, t, req.commit))
            && (rep.success ==> MergedInto(s.log, req.prevIndex + 1, req.entries, t.log))
  {
    hide MergedInto, Rules.Follows, InBounds, Handlers.AppendEntries;
    Rules.FollowerAfter(AsWritten, s, req);
    if Rules.FollowsCheck(s, req) {
      if s.commit == s.applied { Rules.FollowerCommits(AsWritten, s, req); }
      AppendMerged(s, req);
    }
  }

  // ----- snapshot.cpp -----

  /** The two files of a node. `logged` is what the log file is meant to hold. */
  class Snapshot {
    const codec: Codec
    var stateFile: Option<(nat, string)>
    var logFile: seq<byte>
    ghost var logged: seq<Entry>

    ghost predicate Valid()
      reads this
    {
      logFile == Frames(codec, logged)
    }

    ghost function Contents(): (disk: Disk)
      reads this
    {
      match stateFile
      case None => Disk(0, "", logged)
      case Some((term, vote)) => Disk(term, vote, logged)
    }

    method PersistState(term: nat, vote: string)
      requires Valid()
      modifies this`stateFile
      ensures Valid() && Contents() == Disk(term, vote, logged)
    {
      stateFile := Some((term, vote));
    }

    method PersistLog(entries: seq<Entry>, append: bool)
      requires Valid()
      modifies this`logFile, this`logged
      ensures Valid() && logged == if append then old(logged) + entries else entries
    {
      if !append { logFile, logged := [], []; }
      ghost var before := logged;
      for i := 0 to |entries|
        invariant logged == before + entries[..i] && logFile == Frames(codec, logged)
      {
        FramesPush(codec, logged, entries[i]);
        Longer(before, entries, i);
        logFile := logFile + Frame(codec, entries[i]);
        logged := logged + [entries[i]];
      }
    }

    method RestoreState() returns (term: nat, vote: string)
      ensures term == Contents().term && vote == Contents().vote
    {
      match stateFile {
        case None => term, vote := 0, "";
        case Some((t, v)) => term, vote := t, v;
      }
    }

    /** One message object for all records. */
    method RestoreLog() returns (entries: seq<Entry>)
      requires Valid() && Faithful(codec)
      ensures entries == RestoredLog(AsWritten, logged)
    {
      entries := [];
      var entry, rest := ZeroEntry, logFile;
      var parsed := ParseOne(codec, entry, rest);
      while parsed.Some?
        invariant parsed == ParseOne(codec, entry, rest)
        invariant entries + ParseAll(AsWritten, codec, entry, rest) == ParseAll(AsWritten, codec, ZeroEntry, logFile)
        decreases |rest|
      {
        entry := parsed.value.0;
        rest := rest[parsed.value.1..];
        entries := entries + [entry];
        parsed := ParseOne(codec, entry, rest);
      }
      ParseWritten(codec, ZeroEntry, logged);
    }

    method Empty() returns (empty: bool)
      requires Valid()
      ensures empty <==> stateFile == None && logged == []
    {
      empty := stateFile == None && logFile == [];
    }
  }

  // ----- commit_channel.cpp, the queue -----

  /** `pushed` is everything ever pushed since the process started. */
  class CommitChannel {
    var commitQueue: seq<Entry>
    ghost var pushed: seq<Entry>

    constructor ()
      ensures commitQueue == [] && pushed == []
    {
      commitQueue, pushed := [], [];
    }

    method Push(e: Entry)
      modifies this
      ensures commitQueue == old(commitQueue) + [e] && pushed == old(pushed) + [e]
    {
      commitQueue := commitQueue + [e];
      pushed := pushed + [e];
    }

    method Pop() returns (e: Entry)
      requires commitQueue != []
      modifies this`commitQueue
      ensures [e] + commitQueue == old(commitQueue)
    {
      e := commitQueue[0];
      commitQueue := commitQueue[1..];
    }
  }

  // ----- concensus_module.cpp -----

  class ConcensusModule {
    const address: string
    const peerIds: seq<string>
    const log: CommandLog
    const snapshot: Snapshot
    const channel: CommitChannel
    var currentTerm: nat
    var state: Role
    var vote: string
    var votesReceived: int

    ghost function State(): (state: NodeState)
      reads this, log, snapshot, channel
    {
      NodeState(currentTerm, state, vote, votesReceived, log.entries, log.commitIndex, log.lastApplied,
                log.nextIndex, log.matchIndex, channel.pushed, snapshot.Contents())
    }

    ghost predicate Valid()
      reads snapshot
    {
      snapshot.Valid()
    }

    /** A new process on the files of the old one. */
    constructor (address: string, peerIds: seq<string>, files: Snapshot)
      requires files.Valid() && Faithful(files.codec)
      ensures this.address == address && this.peerIds == peerIds && snapshot == files
      ensures fresh(log) && fresh(channel)
      ensures Valid() && State() == FromDisk(AsWritten, old(files.Contents()), peerIds)
      ensures forall p | p in peerIds ::
                && p in log.nextIndex && log.nextIndex[p] == |log.entries|
                && p in log.matchIndex && log.matchIndex[p] == -1
      ensures state == Follower && log.commitIndex == log.lastApplied == -1 && channel.commitQueue == []
      ensures old(files.stateFile) == None && old(files.logged) == [] ==> State() == InitialNode(peerIds)
    {
      this.address, this.peerIds, this.snapshot := address, peerIds, files;
      currentTerm, state, vote, votesReceived := 0, Follower, "", 0;
      var l := new CommandLog(peerIds);
      var c := new CommitChannel();
      this.log, this.channel := l, c;
      new;
      var empty := files.Empty();
      if !empty {
        RestoreFromStorage();
      }
    }

    method RestoreFromStorage()
      requires Valid() && Faithful(snapshot.codec)
      requires log.nextIndex == PointAll(peerIds, 0)
      modifies this, log
      ensures State() == old(State()).(term := snapshot.Contents().term, vote := snapshot.Contents().vote,
                                       log := RestoredLog(AsWritten, snapshot.logged),
                                       next := PointAll(peerIds, |RestoredLog(AsWritten, snapshot.logged)|))
    {
      currentTerm, vote := snapshot.RestoreState();
      var entries := snapshot.RestoreLog();
      log.entries := entries;
      PointNext(|entries|);
    }

    /** The loop over the peers at the end of RestoreFromStorage. */
    method PointNext(size: nat)
      requires log.nextIndex == PointAll(peerIds, 0)
      modifies log`nextIndex
      ensures log.nextIndex == PointAll(peerIds, size)
    {
      for i := 0 to |peerIds|
        invariant forall p :: p in log.nextIndex <==> p in peerIds
        invariant forall j | 0 <= j < i :: log.nextIndex[peerIds[j]] == size
      {
        log.nextIndex := log.nextIndex[peerIds[i] := size];
      }
    }

    method ResetToFollower(term: nat)
      requires Valid()
      modifies this, snapshot
      ensures Valid() && State() == Handlers.ResetToFollower(old(State()), term)
      ensures snapshot.logFile == old(snapshot.logFile)
    {
      state := Follower;
      currentTerm := term;
      vote := "";
      votesReceived := 0;
      snapshot.PersistState(currentTerm, vote);
    }

    /** The vote requests sent, with their addressees. */
    method ElectionCallback(timer: nat) returns (sent: seq<(string, VoteReq)>)
      requires Valid()
      modifies this, snapshot
      ensures Valid()
      ensures old(state) == Leader || old(currentTerm) != timer ==> State() == old(State()) && sent == []
      ensures old(state) != Leader && old(currentTerm) == timer ==>
                && State() == Stand(old(State()), address)
                && state == Candidate && currentTerm == timer + 1 && vote == address && votesReceived == 1
                && snapshot.stateFile == Some((timer + 1, address))
                && |sent| == |peerIds|
                && forall i | 0 <= i < |sent| ::
                     sent[i] == (peerIds[i], VoteReq(timer + 1, address, |log.entries| - 1, LastTerm(log.entries)))
      ensures MayStand(old(State()), timer) <==> old(state) != Leader && old(currentTerm) == timer
    {
      sent := [];
      if state != Candidate && state != Follower { return; }
      if currentTerm != timer { return; }
      state := Candidate;
      currentTerm := currentTerm + 1;
      vote := address;
      votesReceived := 1;
      snapshot.PersistState(currentTerm, vote);
      for i := 0 to |peerIds|
        invariant |sent| == i
        invariant forall j | 0 <= j < i ::
          sent[j] == (peerIds[j], VoteReq(currentTerm, address, |log.entries| - 1, LastTerm(log.entries)))
      {
        var args := VoteReq(currentTerm, address, |log.entries| - 1, LastTerm(log.entries));
        sent := sent + [(peerIds[i], args)];
      }
    }

    /** The AppendEntries sent. A next index past the end of the log is undefined behaviour. */
    method HeartbeatCallback() returns (sent: seq<(string, AppendReq)>)
      requires state == Leader ==> MayHeartbeat(State(), peerIds)
      ensures state != Leader ==> sent == []
      ensures state == Leader ==> |sent| == |peerIds|
      ensures state == Leader ==> forall i | 0 <= i < |sent| ::
                Get(log.nextIndex, peerIds[i]) <= |log.entries|
                && sent[i] == (peerIds[i], Heartbeat(State(), address, peerIds[i]))
    {
      sent := [];
      if state != Leader { return; }
      for i := 0 to |peerIds|
        invariant |sent| == i
        invariant forall j | 0 <= j < i ::
          Get(log.nextIndex, peerIds[j]) <= |log.entries|
          && sent[j] == (peerIds[j], Heartbeat(State(), address, peerIds[j]))
      {
        assert peerIds[i] in peerIds;
        var next := Get(log.nextIndex, peerIds[i]);
        var prevTerm: int := -1;
        if next - 1 >= 0 { prevTerm := log.entries[next - 1].term; }
        var entries := [];
        // the loop variable is compared as unsigned, so a negative one is past the end
        if next >= 0 {
          for j := next to |log.entries|
            invariant entries == log.entries[next..j]
          {
            entries := entries + [log.entries[j]];
          }
          assert log.entries[next..|log.entries|] == log.entries[next..];
        }
        var args := AppendReq(currentTerm, address, next - 1, prevTerm, entries, log.commitIndex);
        assert args == Heartbeat(State(), address, peerIds[i]);
        sent := sent + [(peerIds[i], args)];
      }
    }

    method PromoteToLeader()
      modifies this
      ensures State() == Handlers.PromoteToLeader(AsWritten, old(State()), peerIds)
    {
      state := Leader;
      votesReceived := 0;
    }

    method CommitEntry(e: Entry)
      modifies channel
      ensures State() == old(State()).(queue := old(State()).queue + [e])
    {
      channel.Push(e);
    }

    method Submit(e: Entry)
      requires Valid()
      modifies log, snapshot
      ensures Valid() && State() == Handlers.Submit(old(State()), e)
    {
      if state == Leader {
        log.AppendLog(e);
        snapshot.PersistLog([e], true);
      }
    }

    /** The loop both commit paths end with. */
    method ApplyCommitted(to: int)
      requires -1 <= log.lastApplied && to < |log.entries|
      modifies log`lastApplied, channel
      ensures State() == ApplyThrough(old(State()), to)
    {
      ghost var from := log.lastApplied;
      while log.lastApplied < to
        invariant log.lastApplied == from || from < log.lastApplied <= to
        invariant channel.pushed
                  == old(channel.pushed) + (if from < to then log.entries[from + 1..log.lastApplied + 1] else [])
        invariant State() == old(State()).(applied := log.lastApplied, queue := channel.pushed)
      {
        log.lastApplied := log.lastApplied + 1;
        CommitEntry(log.entries[log.lastApplied]);
      }
    }

    // ----- raft_server.cpp -----

    method RequestVote(req: VoteReq) returns (rep: VoteRep)
      requires Valid()
      modifies this, snapshot
      ensures Valid() && (State(), rep) == Handlers.RequestVote(AsWritten, old(State()), req)
      ensures rep.term == currentTerm == Rules.Max(old(currentTerm), req.term)
      ensures Departures.FitsInt(log.entries) ==>
                forall theirs | Rules.SentWith(req, theirs) && Departures.FitsInt(theirs) ::
                  rep.granted <==> Rules.VoteIsFree(old(State()), req.term, req.candidate)
                                   && Rules.Wins(AsWritten, theirs, old(log.entries))
    {
      VoteAnswered(State(), req);
      var lastIndex := |log.entries| - 1;
      var lastTerm := LastTerm(log.entries);
      if req.term > currentTerm {
        ResetToFollower(req.term);
      }
      if req.term == currentTerm && (vote == "" || vote == req.candidate)
         && (U32(req.lastTerm) > U32(lastTerm)
             || (U32(req.lastTerm) == U32(lastTerm) && U32(req.lastIndex) >= U32(lastIndex))) {
        vote := req.candidate;
        rep := VoteRep(currentTerm, true);
      } else {
        rep := VoteRep(currentTerm, false);
      }
    }

    /** The scan for the first entry whose term differs. */
    method FindMismatch(prev: int, entries: seq<Entry>) returns (k: nat)
      requires -1 <= prev < |log.entries|
      ensures k == Agreeing(log.entries, prev + 1, entries)
    {
      var logInsertIndex := prev + 1;
      k := 0;
      while logInsertIndex < |log.entries| && k < |entries| && log.entries[logInsertIndex].term == entries[k].term
        invariant k <= |entries| && logInsertIndex == prev + 1 + k
        invariant Agreeing(log.entries, prev + 1, entries) == k + Agreeing(log.entries, logInsertIndex, entries[k..])
        decreases |entries| - k
      {
        assert entries[k..][1..] == entries[k + 1..];
        logInsertIndex, k := logInsertIndex + 1, k + 1;
      }
    }

    method MergeEntries(prev: int, entries: seq<Entry>)
      requires Valid() && -1 <= prev < |log.entries|
      modifies log, snapshot
      ensures Valid() && State() == WithLog(old(State()), Merge(AsWritten, old(log.entries), prev, entries))
      ensures MergedInto(old(log.entries), prev + 1, entries, log.entries)
    {
      hide MergedInto, InsertedAt, FirstDisagreement;
      hide Merge, Agreeing, LogMerge.InsertLog;
      MergedAsWritten(log.entries, prev, entries);
      var k := FindMismatch(prev, entries);
      MergeFrom(log.entries, prev, entries, k);
      if k < |entries| {
        log.InsertLog(prev + 1 + k, entries[k..]);
        snapshot.PersistLog(log.entries, false);
      }
    }

    method FollowLeaderCommit(leaderCommit: int)
      requires -1 <= log.lastApplied && (leaderCommit > log.commitIndex ==> leaderCommit < |log.entries|)
      modifies log, channel
      ensures State() == FollowCommit(old(State()), leaderCommit)
      ensures log.commitIndex == Rules.Max(old(log.commitIndex), leaderCommit)
      ensures old(log.commitIndex) == old(log.lastApplied) ==> Rules.Follows(old(State()), State(), leaderCommit)
    {
      if leaderCommit > log.commitIndex {
        var to := Min(leaderCommit, |log.entries|);
        log.commitIndex := to;
        ApplyCommitted(to);
      }
    }

    method AppendEntries(req: AppendReq) returns (rep: AppendRep)
      requires Valid() && InBounds(AsWritten, State(), req)
      modifies this, log, snapshot, channel
      ensures Valid() && (State(), rep) == Handlers.AppendEntries(AsWritten, old(State()), req)
      ensures rep.term == currentTerm == Rules.Max(old(currentTerm), req.term)
      ensures rep.success <==> Rules.FollowsCheck(old(State()), req)
      ensures req.term >= old(currentTerm) ==> state == Follower
      ensures rep.success && old(log.commitIndex) == old(log.lastApplied) ==>
                Rules.Follows(old(State()), State(), req.commit)
      ensures rep.success ==> MergedInto(old(log.entries), req.prevIndex + 1, req.entries, log.entries)
    {
      hide MergedInto, Rules.Follows, Merge, Agreeing, FollowCommit;
      AppendAnswered(State(), req);
      if req.term > currentTerm {
        ResetToFollower(req.term);
      }
      var success := false;
      if req.term == currentTerm {
        if state != Follower {
          ResetToFollower(req.term);
        }
        assert State() == Heard(old(State()), req.term);
        if req.prevIndex == -1
           || (0 <= req.prevIndex < |log.entries| && req.prevTerm == log.entries[req.prevIndex].term) {
          success := true;
          MergeEntries(req.prevIndex, req.entries);
          FollowLeaderCommit(req.commit);
        }
      }
      rep := AppendRep(currentTerm, success);
    }

    // ----- client_callback_queue.cpp -----

    method VoteReplyArrived(req: VoteReq, rep: VoteRep)
      requires Valid()
      modifies this, snapshot
      ensures Valid() && State() == VoteReply(AsWritten, old(State()), peerIds, req, rep)
    {
      if state != Candidate { return; }
      if rep.term > req.term {
        ResetToFollower(rep.term);
      } else if rep.term == req.term && rep.granted {
        votesReceived := votesReceived + 1;
        if votesReceived * 2 > |peerIds| + 1 {
          PromoteToLeader();
        }
      }
    }

    /** One round of the inner loop: the leader and the peers whose match index reaches `i`. */
    method CountMatches(i: int) returns (count: nat)
      ensures count == 1 + MatchCount(peerIds, log.matchIndex, i)
    {
      count := 1;
      for j := 0 to |peerIds|
        invariant count + MatchCount(peerIds[j..], log.matchIndex, i) == 1 + MatchCount(peerIds, log.matchIndex, i)
      {
        assert peerIds[j..][1..] == peerIds[j + 1..] && peerIds[j..][0] == peerIds[j];
        if Get(log.matchIndex, peerIds[j]) >= i {
          count := count + 1;
        }
      }
    }

    method AdvanceCommitIndex()
      requires -1 <= log.commitIndex && -1 <= log.lastApplied
      modifies log, channel
      ensures State() == AdvanceCommit(old(State()), peerIds)
    {
      var saved, size := log.commitIndex, |log.entries|;
      ghost var before := State();
      var i := saved + 1;
      while i < size
        invariant saved < i && (i <= size || i == saved + 1)
        invariant log.commitIndex == AdvanceBelow(before, peerIds, if i <= size then i else size)
        invariant State() == before.(commit := log.commitIndex)
      {
        if log.entries[i].term == currentTerm {
          var count := CountMatches(i);
          if count * 2 > |peerIds| + 1 {
            log.commitIndex := i;
          }
        }
        i := i + 1;
      }
      if log.commitIndex != saved {
        ApplyCommitted(log.commitIndex);
      }
    }

    method AppendReplyArrived(peer: string, req: AppendReq, rep: AppendRep)
      requires Valid() && -1 <= log.commitIndex && -1 <= log.lastApplied
      modifies this, log, snapshot, channel
      ensures Valid() && State() == AppendReply(AsWritten, old(State()), peerIds, peer, req, rep)
    {
      if rep.term > req.term {
        ResetToFollower(rep.term);
        return;
      }
      if state == Leader && rep.term == currentTerm {
        var next := Get(log.nextIndex, peer);
        if rep.success {
          log.nextIndex := log.nextIndex[peer := next + |req.entries|];
          log.matchIndex := log.matchIndex[peer := next + |req.entries| - 1];
          assert State() == Matched(old(State()), peer, next + |req.entries|);
          AdvanceCommitIndex();
        } else {
          log.nextIndex := log.nextIndex[peer := next - 1];
        }
      }
    }
  }
}
