/** Settlement records: one per session and settlement tuple, moved by value-guarded transitions. */
module Collections {
  import opened Basics
  import opened Ledger

  datatype CollectionState = Collectible | CollectPending | Collected | CollectFailedRetryable

  datatype Record = Record(
    rav: SignedRav,
    value: nat,
    state: CollectionState,
    attempts: nat,
    lastTxHash: string,
    lastError: string,
    collectedAmount: Option<nat>,
    createdAt: nat,
    updatedAt: nat)

  datatype CollectionError = NotFound | PendingConflict | StaleCollected | ValueConflict | InvalidTransition

  type Outcome = Result<Record, CollectionError>

  function NewRecord(rav: SignedRav, now: nat): Record {
    Record(rav, rav.message.value, Collectible, 0, "", "", None, now, now)
  }

  /** The record a newly accepted voucher leads to, given the one now under its key. */
  function NextCollectible(current: Option<Record>, rav: SignedRav, now: nat): Outcome {
    var made := NewRecord(rav, now);
    match current
    case None => Ok(made)
    case Some(c) =>
      if c.state == CollectPending && c.value != made.value then Err(PendingConflict)
      else if c.state == CollectPending then Ok(c)
      else if c.state == Collected && c.value == made.value then Ok(c)
      else if c.state == Collected && made.value < c.value then Err(StaleCollected)
      else Ok(made.(createdAt := c.createdAt))
  }

  function MarkPending(r: Record, expected: nat, tx: string, now: nat): Outcome {
    if r.value != expected then Err(ValueConflict)
    else if r.state != Collectible && r.state != CollectFailedRetryable then Err(InvalidTransition)
    else Ok(r.(state := CollectPending, attempts := r.attempts + 1, lastTxHash := tx, lastError := "",
               updatedAt := now))
  }

  function MarkCollected(r: Record, expected: nat, tx: string, amount: Option<nat>, now: nat): Outcome {
    if r.value != expected then Err(ValueConflict)
    else if r.state != CollectPending then Err(InvalidTransition)
    else Ok(r.(state := Collected, lastTxHash := tx, lastError := "", collectedAmount := amount, updatedAt := now))
  }

  function MarkRetryable(r: Record, expected: nat, tx: string, error: string, now: nat): Outcome {
    if r.value != expected then Err(ValueConflict)
    else if r.state != CollectPending then Err(InvalidTransition)
    else Ok(r.(state := CollectFailedRetryable, lastTxHash := tx, lastError := error, updatedAt := now))
  }

  function Lookup(records: map<Tuple, Record>, t: Tuple): Option<Record> {
    if t in records then Some(records[t]) else None
  }

  /** Store a successful outcome, or leave the table as it was. */
  function Store(records: map<Tuple, Record>, t: Tuple, outcome: Outcome): map<Tuple, Record> {
    if outcome.Ok? then records[t := outcome.value] else records
  }
}
