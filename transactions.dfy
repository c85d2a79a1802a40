/** A PostgreSQL connection as the import scripts drive it through
    psycopg2: statements run inside an open transaction; a failing
    statement aborts it, after which every statement fails until a
    rollback; COMMIT publishes the pending state, except on an aborted
    transaction, where it rolls back instead. */
module Transactions {

  /** The committed contents, the contents the open transaction sees, and
      whether the transaction has been aborted by a failed statement. */
  datatype Conn<T> = Conn(committed: T, pending: T, aborted: bool)

  /** No open changes and no failed statement. */
  predicate Clean<T(==)>(c: Conn<T>) {
    !c.aborted && c.pending == c.committed
  }

  function Fresh<T>(t: T): (c: Conn<T>)
    ensures c.committed == t && c.pending == t && !c.aborted
  {
    Conn(t, t, false)
  }

  /** One statement with the given effect: whether it succeeds, and the connection after it. */
  function Executed<T>(c: Conn<T>, effect: T -> T, fails: bool): (r: (Conn<T>, bool))
    ensures r.1 <==> !c.aborted && !fails
    ensures r.1 ==> r.0 == Conn(c.committed, effect(c.pending), false)
    ensures !r.1 ==> r.0 == Conn(c.committed, c.pending, true)
    ensures r.0.committed == c.committed
  {
    if c.aborted then (c, false)
    else if fails then (c.(aborted := true), false)
    else (c.(pending := effect(c.pending)), true)
  }

  /** conn.commit(): the pending contents become committed; on an aborted transaction nothing does. */
  function Committed<T>(c: Conn<T>): (r: Conn<T>)
    ensures !r.aborted && r.pending == r.committed
    ensures r.committed == if c.aborted then c.committed else c.pending
  {
    if c.aborted then Conn(c.committed, c.committed, false) else Conn(c.pending, c.pending, false)
  }

  /** conn.rollback(): the open changes are dropped and the transaction is usable again. */
  function RolledBack<T>(c: Conn<T>): (r: Conn<T>)
    ensures !r.aborted && r.pending == r.committed && r.committed == c.committed
  {
    Conn(c.committed, c.committed, false)
  }

  /** One statement inside SAVEPOINT ... RELEASE, rolled back to the savepoint when it
      fails: the transaction stays usable and keeps its earlier pending work. */
  function ExecutedInSavepoint<T>(c: Conn<T>, effect: T -> T, fails: bool): (r: (Conn<T>, bool))
    ensures r.1 <==> !c.aborted && !fails
    ensures r.1 ==> r.0 == Conn(c.committed, effect(c.pending), false)
    ensures !r.1 ==> r.0 == c
  {
    if c.aborted || fails then (c, false) else (c.(pending := effect(c.pending)), true)
  }

  /** Once a statement has failed, nothing can be committed until a rollback. */
  lemma AbortedCommitsNothing<T>(c: Conn<T>, effects: seq<T -> T>)
    requires c.aborted
    ensures Committed(ExecuteEach(c, effects)).committed == c.committed
  {
    AbortedStaysAborted(c, effects);
  }

  /** Statements that all succeed, one after another, as a failed statement would leave them. */
  function ExecuteEach<T>(c: Conn<T>, effects: seq<T -> T>): Conn<T>
    decreases |effects|
  {
    if effects == [] then c else ExecuteEach(Executed(c, effects[0], false).0, effects[1..])
  }

  lemma {:induction false} AbortedStaysAborted<T>(c: Conn<T>, effects: seq<T -> T>)
    requires c.aborted
    decreases |effects|
    ensures ExecuteEach(c, effects) == c
  {
    if effects != [] {
      AbortedStaysAborted(c, effects[1..]);
    }
  }

  /** The connection object the scripts hold. */
  class Connection<T> {
    var committed: T
    var pending: T
    var aborted: bool

    function State(): Conn<T>
      reads this
    {
      Conn(committed, pending, aborted)
    }

    constructor(t: T)
      ensures State() == Fresh(t)
    {
      committed, pending, aborted := t, t, false;
    }

    /** cursor.execute(...): raises (ok is false) when the statement fails or the transaction is aborted. */
    method Execute(effect: T -> T, fails: bool) returns (ok: bool)
      modifies this
      ensures (State(), ok) == Executed(old(State()), effect, fails)
    {
      if aborted {
        return false;
      }
      if fails {
        aborted := true;
        return false;
      }
      pending := effect(pending);
      return true;
    }

    method ExecuteInSavepoint(effect: T -> T, fails: bool) returns (ok: bool)
      modifies this
      ensures (State(), ok) == ExecutedInSavepoint(old(State()), effect, fails)
    {
      if aborted || fails {
        return false;
      }
      pending := effect(pending);
      return true;
    }

    method Commit()
      modifies this
      ensures State() == Committed(old(State()))
    {
      if aborted {
        pending, aborted := committed, false;
      } else {
        committed := pending;
      }
    }

    method Rollback()
      modifies this
      ensures State() == RolledBack(old(State()))
    {
      pending, aborted := committed, false;
    }
  }
}
