/** The `expenses` table as an append-only log. A record's id is its position
    in the log, so ids increase with every insert and are never reused. */
module Storage {
  import opened Options

  /** One row of `expenses`. `day` stands for `date(ts)`, the calendar date of
      the insert timestamp; `category` and `other` are nullable text. */
  datatype Record = Record(
    userId: int,
    day: int,
    amount: nat,
    category: Option<string>,
    other: Option<string>)

  type Log = seq<Record>

  /** `INSERT INTO expenses ...`: the new record gets the next id and nothing
      already stored changes. */
  function Insert(log: Log, r: Record): (res: (Log, nat))
    ensures res.1 == |log| && |res.0| == |log| + 1
    ensures res.0[res.1] == r
    ensures forall i :: 0 <= i < |log| ==> res.0[i] == log[i]
  {
    (log + [r], |log|)
  }

  /** The log after an optional insert: the old log is kept as a prefix, and
      it grows by one record exactly when there is one to store. */
  function Store(log: Log, r: Option<Record>): (log': Log)
    ensures |log'| == |log| + (if r.Some? then 1 else 0)
    ensures log'[..|log|] == log
    ensures r.Some? ==> log'[|log|] == r.value
  {
    match r
    case None => log
    case Some(x) => Insert(log, x).0
  }

}
