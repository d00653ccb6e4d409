/** The MySQL task table and its optimistic lock. */
module TaskTable {
  import opened Entities
  import opened SortedSets

  /** What happens to one Update call: nothing, the statement never ran, or it ran but the reply was
      lost. */
  datatype Fault = NoFault | LostBefore | LostAfter

  predicate LockHolds(rows: map<string, Task>, t: Task) {
    t.id in rows && rows[t.id].version == t.version
  }

  /** Update increments the version of the in-memory task before it knows the outcome. */
  function Bumped(t: Task): Task {
    t.(version := t.version + 1)
  }

  /** GORM's Updates with a struct: zero values are not written. */
  function Merged(row: Task, t: Task): Task {
    Task(
      row.id,
      if t.queue == "" then row.queue else t.queue,
      if t.priority == 0 then row.priority else t.priority,
      if t.timeout == 0 then row.timeout else t.timeout,
      if t.maxRetries == 0 then row.maxRetries else t.maxRetries,
      if t.retryCount == 0 then row.retryCount else t.retryCount,
      if t.retryBackoff == 0 then row.retryBackoff else t.retryBackoff,
      if t.state.Pending? then row.state else t.state,
      if t.version == 0 then row.version else t.version,
      if t.mentions == {} then row.mentions else t.mentions,
      t.rest)
  }

  function Committed(rows: map<string, Task>, t: Task): map<string, Task>
    requires t.id in rows
  {
    rows[t.id := Merged(rows[t.id], Bumped(t))]
  }

  predicate Commits(rows: map<string, Task>, t: Task, fault: Fault) {
    LockHolds(rows, t) && !fault.LostBefore?
  }

  /** The caller sees no error. */
  predicate Succeeds(rows: map<string, Task>, t: Task, fault: Fault) {
    LockHolds(rows, t) && fault.NoFault?
  }

  function AfterUpdate(rows: map<string, Task>, t: Task, fault: Fault): map<string, Task> {
    if Commits(rows, t, fault) then Committed(rows, t) else rows
  }

  /** What a write of t leaves of the row: every field with a value is t's, every zero one is as it was. */
  predicate Wrote(before: Task, t: Task, after: Task) {
    && after.id == before.id && after.rest == t.rest
    && after.queue == (if t.queue != "" then t.queue else before.queue)
    && (t.priority != 0 ==> after.priority == t.priority) && (t.priority == 0 ==> after.priority == before.priority)
    && (t.timeout != 0 ==> after.timeout == t.timeout) && (t.timeout == 0 ==> after.timeout == before.timeout)
    && (t.maxRetries != 0 ==> after.maxRetries == t.maxRetries)
    && (t.maxRetries == 0 ==> after.maxRetries == before.maxRetries)
    && (t.retryCount != 0 ==> after.retryCount == t.retryCount)
    && (t.retryCount == 0 ==> after.retryCount == before.retryCount)
    && (t.retryBackoff != 0 ==> after.retryBackoff == t.retryBackoff)
    && (t.retryBackoff == 0 ==> after.retryBackoff == before.retryBackoff)
    && (t.state != Pending ==> after.state == t.state) && (t.state == Pending ==> after.state == before.state)
    && (t.version >= 0 ==> after.version == t.version + 1)
    && (t.mentions != {} ==> after.mentions == t.mentions) && (t.mentions == {} ==> after.mentions == before.mentions)
  }

  /** A commit writes exactly that, to this row only. */
  lemma CommittedWrites(rows: map<string, Task>, t: Task)
    requires t.id in rows
    ensures
      var after := Committed(rows, t);
      && after.Keys == rows.Keys && Wrote(rows[t.id], t, after[t.id])
      && forall id | id in rows && id != t.id :: after[id] == rows[id]
  {
  }

  /** Of two writers that loaded the same version, the second one to arrive is refused. */
  lemma OneWriterPerVersion(rows: map<string, Task>, t: Task, u: Task, fault: Fault)
    requires t.id == u.id && t.version == u.version && t.version >= 0
    requires Commits(rows, t, fault)
    ensures !LockHolds(AfterUpdate(rows, t, fault), u)
    ensures LockHolds(AfterUpdate(rows, t, fault), Bumped(t))
  {
  }

  class TaskRepository {
    var rows: map<string, Task>
    var touched: map<string, int>   // updated_at of the rows, as long as they are pending

    constructor ()
      ensures rows == map[] && touched == map[]
    {
      rows, touched := map[], map[];
    }

    /** A zero version gets the column default 1, also in memory; a used key is an error. */
    method Create(t: Task, now: int) returns (stored: Task, ok: bool)
      modifies this
      ensures stored == if t.version == 0 then t.(version := 1) else t
      ensures ok <==> t.id !in old(rows)
      ensures rows == if ok then old(rows)[t.id := stored] else old(rows)
      ensures touched == if ok then old(touched)[t.id := now] else old(touched)
    {
      stored := if t.version == 0 then t.(version := 1) else t;
      ok := t.id !in rows;
      if ok {
        rows, touched := rows[t.id := stored], touched[t.id := now];
      }
    }

    method Get(id: string) returns (row: Option<Task>)
      ensures row == if id in rows then Some(rows[id]) else None
    {
      row := if id in rows then Some(rows[id]) else None;
    }

    /** The in-memory task comes back with its version incremented whatever happened. */
    method Update(t: Task, fault: Fault) returns (bumped: Task, ok: bool)
      modifies this
      ensures bumped == Bumped(t)
      ensures rows == AfterUpdate(old(rows), t, fault) && touched == old(touched)
      ensures ok <==> Succeeds(old(rows), t, fault)
      ensures Commits(old(rows), t, fault) ==> Wrote(old(rows)[t.id], t, rows[t.id])
      ensures forall id | id in old(rows) && (id != t.id || !Commits(old(rows), t, fault)) ::
                id in rows && rows[id] == old(rows)[id]
    {
      var oldVersion := t.version;
      bumped := t.(version := t.version + 1);
      ok := false;
      if fault.LostBefore? {
        return;
      }
      if t.id in rows && rows[t.id].version == oldVersion {
        rows := rows[t.id := Merged(rows[t.id], bumped)];
        ok := fault.NoFault?;
      }
    }

    /** The pending rows not written for longer than `olderThan`, oldest first, at most `limit` of them. */
    method FindStale(now: int, olderThan: int, limit: int) returns (tasks: seq<Task>)
      requires forall id | id in rows :: rows[id].id == id
      ensures IsRange(PendingSince(rows, touched), now - olderThan - 1, limit, Ids(tasks))
      ensures forall t | t in tasks ::
                t.id in rows && rows[t.id] == t && t.state == Pending
                && t.id in touched && touched[t.id] < now - olderThan
      ensures forall id | id in rows && Missed(rows[id], touched, now - olderThan, Ids(tasks)) :: |tasks| == limit
    {
      hide IsRange, Missed;
      var found := RangeByScore(PendingSince(rows, touched), now - olderThan - 1, limit);
      tasks := [];
      for i := 0 to |found|
        invariant |tasks| == i && forall k | 0 <= k < i :: tasks[k].id == found[k]
        invariant forall t | t in tasks ::
                    t.id in rows && rows[t.id] == t && t.state == Pending
                    && t.id in touched && touched[t.id] < now - olderThan
      {
        tasks := tasks + [rows[found[i]]];
      }
      assert Ids(tasks) == found;
      forall id | id in rows && Missed(rows[id], touched, now - olderThan, Ids(tasks)) ensures |tasks| == limit {
        MissedMeansFull(rows, touched, now - olderThan, limit, tasks, id);
      }
    }

    method TouchUpdatedAt(id: string, now: int)
      modifies this
      ensures rows == old(rows)
      ensures touched == if id in old(touched) then old(touched)[id := now] else old(touched)
    {
      if id in touched {
        touched := touched[id := now];
      }
    }

    /** `expired` says whose finished_at is before the threshold; at most `limit` rows go. */
    method DeleteTerminal(expired: set<string>, limit: nat) returns (deleted: nat, ghost gone: set<string>)
      modifies this
      ensures gone <= Expired(old(rows), expired)
      ensures rows == old(rows) - gone && touched == old(touched)
      ensures deleted == |gone| == Min(limit, |Expired(old(rows), expired)|)
      ensures forall id | id in rows && id in expired :: deleted == limit || !Terminal(rows[id].state)
    {
      var chosen, left := {}, Expired(rows, expired);
      while left != {} && |chosen| < limit
        invariant chosen + left == Expired(rows, expired) && chosen !! left
        invariant |chosen| <= limit
        invariant rows == old(rows) && touched == old(touched)
        decreases |left|
      {
        var id :| id in left;
        chosen, left := chosen + {id}, left - {id};
      }
      assert |chosen + left| == |chosen| + |left|;
      rows := rows - chosen;
      deleted, gone := |chosen|, chosen;
    }
  }

  /** A pending row written before `threshold` is not in the batch. */
  predicate Missed(row: Task, touched: map<string, int>, threshold: int, batch: seq<string>) {
    row.state == Pending && row.id in touched && touched[row.id] < threshold && row.id !in batch
  }

  lemma MissedMeansFull(
    rows: map<string, Task>, touched: map<string, int>, threshold: int, limit: int, tasks: seq<Task>, id: string)
    requires id in rows && rows[id].id == id && Missed(rows[id], touched, threshold, Ids(tasks))
    requires IsRange(PendingSince(rows, touched), threshold - 1, limit, Ids(tasks))
    ensures |tasks| == limit
  {
    LeftOutIsLater(PendingSince(rows, touched), threshold - 1, limit, Ids(tasks), id);
  }

  function PendingSince(rows: map<string, Task>, touched: map<string, int>): map<string, int> {
    map id | id in rows && id in touched && rows[id].state == Pending :: touched[id]
  }

  function Ids(tasks: seq<Task>): seq<string> {
    seq(|tasks|, i requires 0 <= i < |tasks| => tasks[i].id)
  }

  function Expired(rows: map<string, Task>, expired: set<string>): set<string> {
    set id | id in rows && id in expired && rows[id].IsTerminal()
  }
}
