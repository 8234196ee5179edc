/** Durable controller checkpoints and the compare-and-swap store that keeps them. */
module RunState {
  import opened GraphSchema

  /** The outcome of an effect, bound to the operation it answers. */
  datatype Observation = Observation(operation: string, success: bool)

  /** An action whose verified outcome counts towards the task; iteration is where it ran. */
  datatype Entry = Entry(iteration: int, intent: string)

  /** What a phase retains: an intent while one is pending, its prepared operation while the
      effect may have run, its attested observation once reconciled, a decision at the end. */
  datatype Phase =
    | Ready
    | PendingAuthorization(intent: string)
    | AwaitingApproval(intent: string)
    | PendingEffect(intent: string, operation: string)
    | ReconciliationRequired(intent: string, operation: string)
    | ReconciledEffect(intent: string, operation: string, observation: Observation)
    | Terminal(decision: Decision)

  datatype Decision = Accept | Stop | Escalate | Waiting

  /** The budget spent and the evidence gathered so far. */
  datatype Account = Account(toolCalls: nat, evidence: seq<Entry>)

  const NEW_ACCOUNT: Account := Account(0, [])

  datatype Checkpoint = Checkpoint(phase: Phase, nextIteration: int, account: Account, revision: nat)

  /** The row after a save, or None where another controller moved on first. */
  function Saved(row: Option<Checkpoint>, c: Checkpoint): Option<Checkpoint> {
    if (if row.None? then c.revision == 0 else row.value.revision == c.revision)
    then Some(c.(revision := c.revision + 1))
    else None
  }

  class SQLiteRunStateStore {
    var rows: map<string, Checkpoint>

    constructor ()
      ensures rows == map[]
    {
      rows := map[];
    }

    ghost function RowOf(run: string): Option<Checkpoint>
      reads this
    {
      if run in rows then Some(rows[run]) else None
    }

    method Load(run: string) returns (c: Option<Checkpoint>)
      ensures c == RowOf(run)
    {
      c := if run in rows then Some(rows[run]) else None;
    }

    /** Returns the stored checkpoint with its new revision, or None on a conflict, which changes nothing. */
    method Save(run: string, c: Checkpoint) returns (r: Option<Checkpoint>)
      modifies this
      ensures r == Saved(old(RowOf(run)), c)
      ensures RowOf(run) == if r.Some? then r else old(RowOf(run))
      ensures forall other :: other != run ==> RowOf(other) == old(RowOf(other))
    {
      if run !in rows {
        if c.revision != 0 { return None; }
        r := Some(c.(revision := 1));
      } else {
        if rows[run].revision != c.revision { return None; }
        r := Some(c.(revision := c.revision + 1));
      }
      rows := rows[run := r.value];
    }
  }
}
