/** Log entries and identifiers. Index 1 is the first entry; term 0 means "no entry". */
module LogTypes {
  import opened Quorum

  datatype LogId = LogId(index: nat, term: nat)

  /** The comparison of log_entry.h: term first, then index. */
  predicate IdLess(a: LogId, b: LogId) {
    if a.term == b.term then a.index < b.index else a.term < b.term
  }

  predicate IdAtMost(a: LogId, b: LogId) { !IdLess(b, a) }

  function IdMax(a: LogId, b: LogId): LogId { if IdLess(a, b) then b else a }

  datatype Payload = Data(bytes: seq<int>) | NoOp | ConfChange(conf: Conf)

  datatype Entry = Entry(term: nat, payload: Payload)

  type Log = seq<Entry>

  function TermAt(log: Log, index: nat): nat {
    if 1 <= index <= |log| then log[index - 1].term else 0
  }

  function LastId(log: Log): LogId { LogId(|log|, TermAt(log, |log|)) }
}
