/** Calm runs with a crash exist for every task of an agreeing queue: the first worker dies after its Running
    write, the second one's Running write fails on the version, and its outcome is written all the same. */
module Survivors {
  import opened Entities
  import opened Keys
  import opened Queues
  import opened TaskTable
  import opened Protocol
  import opened CrashTolerance
  import opened Walks

  lemma CalmPermits()
    ensures Permits(Calm)
  {
  }

  lemma CalmSubmit(b: Task)
    requires Agrees(b.queue)
    ensures Exec(Calm, []) == Some(Init) && Clean(Init) && EmptyAt(Init, b.queue)
    ensures Calm(Init, Create(b, 0)) && Calm(DoCreate(Init, b, 0), Enqueue(b))
  {
    hide Agrees;
  }

  lemma CalmCrash(s: System, b: Task, row: Task, p: nat, node: string)
    requires HandlerRuns(s, b, row, p, node)
    ensures Calm(s, Crash(node))
  {
    hide Get;
  }

  lemma CalmReclaim(s: System, b: Task)
    requires s.attempts == map[]
    ensures forall now :: Calm(s, Reclaim(b.queue, now, 100, [b.id]))
  {
    assert forall id :: !Attended(s, id);
  }

  /** The second worker's handler runs after the first worker died under its own. */
  lemma SecondAttempt(b: Task) returns (es: seq<Event>, s: System, row: Task)
    requires Fresh(b) && Agrees(b.queue)
    ensures Exec(Calm, es) == Some(s) && HandlerRuns(s, b, row, 1, "m") && row.version == 2 && row.state == Running
    ensures Crash("n") in es
  {
    hide Exec, Permits, Queued, Working, HandlerRuns, OffReady, Enabled, Apply, DoCreate, Calm, Agrees, EmptyAt, Clean,
         HasRow;
    CalmPermits();
    CalmSubmit(b);
    s := Submit(Calm, b, [], Init);
    es := [] + [Create(b, 0)] + [Enqueue(b)];
    es, s := Clear(Calm, b, b, es, s, 0, "n");
    s, row := StartIt(Calm, b, b, es, s, 0, "n");
    es := es + [Start(0, NoFault)];
    CalmCrash(s, b, row, 0, "n");
    s := Die(Calm, b, row, es, s, 0, "n");
    es := es + [Crash("n")];
    CalmReclaim(s, b);
    var reclaim;
    reclaim, s := ComeBack(Calm, b, row, es, s);
    es := es + [reclaim];
    es, s := Clear(Calm, b, row, es, s, 1, "m");
    var after;
    s, after := StartIt(Calm, b, row, es, s, 1, "m");
    es := es + [Start(1, NoFault)];
    row := after;
  }

  lemma ReturnIt(b: Task, row: Task, es: seq<Event>, s: System) returns (r: System)
    requires Exec(Calm, es) == Some(s) && HandlerRuns(s, b, row, 1, "m")
    ensures Exec(Calm, es + [Return(1, true, false, true)]) == Some(r)
    ensures InPhase(r, 1, Settling) && r.attempts[1].task == b.(state := Completed, version := b.version + 1)
  {
    hide Exec, Get;
    r := Then(Calm, es, s, Return(1, true, false, true));
  }

  /** For every task in a queue whose name agrees: a calm run with a crash, at the end of which the surviving
      attempt's outcome is in the row. */
  lemma SurvivorCompletes(b: Task) returns (es: seq<Event>)
    requires Fresh(b) && Agrees(b.queue)
    ensures Exec(Calm, es).Some? && Crash("n") in es
    ensures
      var s := Exec(Calm, es).value;
      b.id in s.rows && s.rows[b.id].state == Completed && s.rows[b.id].version == 3
  {
    hide Exec, HandlerRuns, Enabled, Apply, Calm, Agrees;
    var s, row;
    es, s, row := SecondAttempt(b);
    s := ReturnIt(b, row, es, s);
    es := es + [Return(1, true, false, true)];
    FinalWriteLands(s, 1);
    CalmSettle(s);
    s := Then(Calm, es, s, Settle(1, NoFault));
    es := es + [Settle(1, NoFault)];
  }

  lemma CalmSettle(s: System)
    requires InPhase(s, 1, Settling)
    ensures Enabled(s, Settle(1, NoFault)) && Calm(s, Settle(1, NoFault))
  {
  }
}
