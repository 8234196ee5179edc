/** One-time capabilities, and the idempotency records of external effects. */
module EffectStore {
  import opened GraphSchema

  datatype Intent = Intent(digest: string, idempotencyKey: string)

  datatype Capability = Capability(
    nonce: string, intentDigest: string, contractDigest: string, executor: string,
    issuedAt: int, expiresAt: int, signature: string)

  datatype Observation = Observation(success: bool, reason: string, artifacts: map<string, string>, metadata: Payload)

  /** Executor, contract and idempotency key: the primary key of an effect. */
  datatype Op = Op(executor: string, contract: string, idempotencyKey: string)

  datatype Progress = Pending(lease: int) | Completed(observation: Observation) | Indeterminate(recorded: Observation)

  datatype Row = Row(intent: string, progress: Progress)

  type Rows = map<Op, Row>

  datatype Outcome = Fresh | Conflict | Busy | Replay(observation: Observation) | Unknown(recorded: Observation)

  function Undetermined(reason: string): Observation {
    Observation(false, reason, map[], map["idempotency_state" := Str("indeterminate")])
  }

  const EXPIRED: Observation := Undetermined("prior executor lease expired; side effect outcome is unknown")

  /** The answer to a reservation: only a missing row is reserved. */
  function Answer(rows: Rows, op: Op, intent: string, now: int): Outcome {
    if op !in rows then Fresh
    else if rows[op].intent != intent then Conflict
    else match rows[op].progress
      case Completed(o) => Replay(o)
      case Indeterminate(o) => Unknown(o)
      case Pending(lease) => if lease <= now then Unknown(EXPIRED) else Busy
  }

  /** The rows after a reservation; an expired reservation is given up, never retried. */
  function AfterReserve(rows: Rows, op: Op, intent: string, now: int, duration: int): Rows {
    if op !in rows then rows[op := Row(intent, Pending(now + duration))]
    else if rows[op].intent == intent && rows[op].progress.Pending? && rows[op].progress.lease <= now
    then rows[op := Row(intent, Indeterminate(EXPIRED))]
    else rows
  }

  predicate Open(rows: Rows, op: Op, intent: string) {
    op in rows && rows[op].intent == intent && rows[op].progress.Pending?
  }

  /** A durable record is written only over the caller's own open reservation; otherwise it raises. */
  function AfterRecord(rows: Rows, op: Op, intent: string, progress: Progress): Rows {
    if Open(rows, op, intent) then rows[op := Row(intent, progress)] else rows
  }

  // ---- the stores ----

  class SQLiteIdempotencyStore {
    const duration: int
    var rows: Rows

    constructor (duration: int)
      ensures this.duration == duration && rows == map[]
    {
      this.duration := duration;
      rows := map[];
    }

    method Reserve(op: Op, intent: string, now: int) returns (outcome: Outcome)
      modifies this
      ensures outcome == Answer(old(rows), op, intent, now)
      ensures rows == AfterReserve(old(rows), op, intent, now, duration)
    {
      if op !in rows {
        rows := rows[op := Row(intent, Pending(now + duration))];
        return Fresh;
      }
      var row := rows[op];
      if row.intent != intent { return Conflict; }
      match row.progress {
        case Completed(o) => return Replay(o);
        case Indeterminate(o) => return Unknown(o);
        case Pending(lease) =>
          if lease <= now {
            rows := rows[op := Row(intent, Indeterminate(EXPIRED))];
            return Unknown(EXPIRED);
          }
          return Busy;
      }
    }

    method Complete(op: Op, intent: string, observation: Observation) returns (ok: bool)
      modifies this
      ensures ok <==> Open(old(rows), op, intent)
      ensures rows == AfterRecord(old(rows), op, intent, Completed(observation))
    {
      ok := Open(rows, op, intent);
      if ok { rows := rows[op := Row(intent, Completed(observation))]; }
    }

    method MarkIndeterminate(op: Op, intent: string, observation: Observation) returns (ok: bool)
      modifies this
      ensures ok <==> Open(old(rows), op, intent)
      ensures rows == AfterRecord(old(rows), op, intent, Indeterminate(observation))
    {
      ok := Open(rows, op, intent);
      if ok { rows := rows[op := Row(intent, Indeterminate(observation))]; }
    }
  }

  /** The development store keeps no leases: an open reservation never expires. */
  class InMemoryIdempotencyStore {
    var records: map<(Op, string), Option<Observation>>
    var intents: map<Op, string>
    var indeterminate: set<(Op, string)>

    ghost predicate Valid()
      reads this
    {
      && (forall k :: k in records ==> k.0 in intents && intents[k.0] == k.1)
      && (forall op :: op in intents ==> (op, intents[op]) in records)
      && (forall k :: k in indeterminate ==> k in records && records[k].Some?)
    }

    ghost function RowOf(op: Op): Row
      reads this
      requires Valid() && op in intents
    {
      var record := records[(op, intents[op])];
      Row(intents[op], if record.None? then Pending(0)
                       else if (op, intents[op]) in indeterminate then Indeterminate(record.value)
                       else Completed(record.value))
    }

    /** The durable rows this store stands for, with every lease in the future of every reserve. */
    ghost function Contents(): Rows
      reads this
      requires Valid()
    {
      map op | op in intents :: RowOf(op)
    }

    constructor ()
      ensures Valid() && Contents() == map[]
    {
      records := map[];
      intents := map[];
      indeterminate := {};
    }

    /** Answers as the durable store does before any lease expires. */
    method Reserve(op: Op, intent: string) returns (outcome: Outcome)
      requires Valid()
      modifies this
      ensures Valid() && outcome == Answer(old(Contents()), op, intent, -1)
      ensures Contents() == AfterReserve(old(Contents()), op, intent, -1, 1)
    {
      if op in intents && intents[op] != intent { return Conflict; }
      var key := (op, intent);
      if key !in records {
        intents := intents[op := intent];
        records := records[key := None];
        assert Contents() == old(Contents())[op := Row(intent, Pending(0))];
        return Fresh;
      }
      if key in indeterminate { return Unknown(records[key].value); }
      return if records[key].None? then Busy else Replay(records[key].value);
    }

    /** Unlike the durable store this overwrites a settled record; over an open one it does the same. */
    method Complete(op: Op, intent: string, observation: Observation)
      requires Valid() && op in Contents() && Contents()[op].intent == intent
      modifies this
      ensures Valid()
      ensures Open(old(Contents()), op, intent) ==> Contents() == AfterRecord(old(Contents()), op, intent, Completed(observation))
      ensures !Open(old(Contents()), op, intent) && old(Contents())[op].progress.Indeterminate? ==>
                Contents() == old(Contents())[op := Row(intent, Indeterminate(observation))]
      ensures !Open(old(Contents()), op, intent) && !old(Contents())[op].progress.Indeterminate? ==>
                Contents() == old(Contents())[op := Row(intent, Completed(observation))]
    {
      records := records[(op, intent) := Some(observation)];
    }

    method MarkIndeterminate(op: Op, intent: string, observation: Observation)
      requires Valid() && op in Contents() && Contents()[op].intent == intent
      modifies this
      ensures Valid() && Contents() == old(Contents())[op := Row(intent, Indeterminate(observation))]
    {
      records := records[(op, intent) := Some(observation)];
      indeterminate := indeterminate + {(op, intent)};
    }
  }

  class NonceStore {
    var consumed: set<string>

    constructor ()
      ensures consumed == {}
    {
      consumed := {};
    }

    method Consume(nonce: string) returns (ok: bool)
      modifies this
      ensures ok <==> nonce !in old(consumed)
      ensures consumed == old(consumed) + {nonce}
    {
      ok := nonce !in consumed;
      consumed := consumed + {nonce};
    }
  }
}
