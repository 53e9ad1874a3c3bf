/** Messages, log entries and the state of one node. */
module RaftTypes {

  datatype Option<+T> = None | Some(value: T)

  newtype byte = x: int | 0 <= x < 256

  // ----- protos/raft.proto -----

  datatype Metadata = Metadata(videoId: string, version: int, sequence: int, last: bool)

  datatype Chunk = Chunk(metadata: Metadata, data: seq<byte>)

  datatype CommandType = UPLOAD | DELETE

  /** The `oneof Args` of a command. */
  datatype Args = NoArgs | ChunkArgs(chunk: Chunk) | PathArgs(path: string)

  datatype Command = Command(id: CommandType, args: Args)

  datatype Entry = Entry(term: nat, command: Command)

  /** `lastIndex` and `lastTerm` are the sender's signed values, -1 for an empty log;
      the wire carries them as uint32. */
  datatype VoteReq = VoteReq(term: nat, candidate: string, lastIndex: int, lastTerm: int)

  datatype VoteRep = VoteRep(term: nat, granted: bool)

  datatype AppendReq = AppendReq(term: nat, leader: string, prevIndex: int, prevTerm: int,
                                 entries: seq<Entry>, commit: int)

  datatype AppendRep = AppendRep(term: nat, success: bool)

  // ----- one node -----

  datatype Role = Follower | Candidate | Leader

  /** What the state file and the log file hold. A file never written reads as the zero message. */
  datatype Disk = Disk(term: nat, vote: string, log: seq<Entry>)

  datatype NodeState = NodeState(
    term: nat, role: Role, vote: string, votes: int,
    log: seq<Entry>, commit: int, applied: int,
    next: map<string, int>, matched: map<string, int>,
    queue: seq<Entry>, disk: Disk)

  /** std::unordered_map::operator[]: a missing key reads as 0. */
  function Get(m: map<string, int>, key: string): (value: int) {
    if key in m then m[key] else 0
  }

  function LastTerm(log: seq<Entry>): (term: int) {
    if |log| > 0 then log[|log| - 1].term else -1
  }

  /** Conversion of a C++ int to uint32. */
  function U32(x: int): (unsigned: nat) { x % 0x1_0000_0000 }

  /** The two behaviours of a handler: the one the source has, and the one in which the
      departures from the Raft paper listed in README.md are repaired. */
  datatype Mode = AsWritten | Repaired
}
