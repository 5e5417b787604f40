/** Values exchanged and stored by the Raft nodes of src/raftCore. */
module RaftTypes {

  /** The serialized client operation carried by a log entry. */
  type Command = string

  datatype Entry = Entry(command: Command, term: int, index: int)

  type Log = seq<Entry>

  /** The term of the entry with logical index k; index 0 is the empty prefix, of term 0. */
  function TermOf(log: Log, k: nat): int
    requires k <= |log|
  {
    if k == 0 then 0 else log[k - 1].term
  }

  /** `log` with the entries `es` written over it right after position `prev`; the tail survives. */
  function Overlay(log: Log, prev: nat, es: Log): Log
    requires prev <= |log|
  {
    log[..prev] + es + (if prev + |es| < |log| then log[prev + |es|..] else [])
  }

  /** More than half of n nodes. */
  predicate Majority(n: nat, s: set<nat>) {
    2 * |s| > n
  }

  function Max(a: int, b: int): int { if a < b then b else a }

  function Min(a: int, b: int): int { if a < b then a else b }
}
