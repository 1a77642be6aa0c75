/**
 Rows of the event, processing and notification tables, and the decision that the
 idempotency guard takes from the processing row it reads.
 */
module Tables {
  datatype EventStatus = EvReceived | EvProcessing | EvProcessed | EvInvalid | EvFailed | EvDlq

  datatype ProcStatus = Pending | Processing | Completed | Failed | Skipped

  /** The unique key of the processing table. */
  datatype PKey = PKey(event: string, handler: string)

  /** A processing row; `id` is its surrogate key, which updates address. */
  datatype ProcRow = ProcRow(id: nat, status: ProcStatus)

  type Rows = map<PKey, ProcRow>

  /** A notification row, tagged with the processing row under which it was written. */
  datatype Notif = Notif(key: PKey, run: nat, dedup: string)

  /** The names of the handlers registered for an event type, in order; none for an unknown type. */
  function HandlersOf(registry: map<string, seq<string>>, eventType: string): seq<string>
  {
    if eventType in registry then registry[eventType] else []
  }

  datatype Decision = Conflict | Resume(id: nat) | Create

  /** What the guard does with the processing row it finds, if any. */
  function Decide(rows: Rows, k: PKey): Decision
  {
    if k !in rows then Create
    else match rows[k].status
      case Completed | Processing | Skipped => Conflict
      case Pending | Failed => Resume(rows[k].id)
  }

  /** A row that is done, in progress or skipped is left alone; one that waits or failed is resumed under its id. */
  lemma DecideLaws(rows: Rows, k: PKey)
    ensures Decide(rows, k) == Create <==> k !in rows
    ensures Decide(rows, k) == Conflict <==> k in rows && rows[k].status in {Completed, Processing, Skipped}
    ensures forall id :: Decide(rows, k) == Resume(id) <==>
        k in rows && rows[k] in {ProcRow(id, Pending), ProcRow(id, Failed)}
  {
  }

  /** UPDATE ... SET status WHERE id: touches the row carrying that id, wherever it is, or nothing. */
  function SetStatus(rows: Rows, id: nat, st: ProcStatus): Rows
  {
    map k | k in rows :: if rows[k].id == id then rows[k].(status := st) else rows[k]
  }

  ghost predicate AllCompleted(rows: Rows)
  {
    forall k :: k in rows ==> rows[k].status == Completed
  }

  ghost predicate IdsBelow(rows: Rows, n: nat)
  {
    forall k :: k in rows ==> rows[k].id < n
  }
}
