/** Which workloads are safe from loss: exactly those whose tasks mention no other task of their queue and
    whose queue names agree with their derived keys. */
module Workloads {
  import opened Entities
  import opened Keys
  import opened Queues
  import opened TaskTable
  import opened Protocol
  import opened NoLoss
  import opened Walks

  ghost predicate Workload(w: set<Task>) {
    && (forall t | t in w :: Fresh(t))
    && (forall t, u | t in w && u in w && t.id == u.id :: t == u)
  }

  predicate Separate(w: set<Task>) {
    forall t, u | t in w && u in w && t.id != u.id && t.queue == u.queue :: t.id !in u.mentions
  }

  /** Every queue name is one whose keys the dequeue script derives as they are formatted. */
  predicate WellNamed(w: set<Task>) {
    forall t | t in w :: Agrees(t.queue)
  }

  predicate RunsOver(w: set<Task>, es: seq<Event>) {
    forall i | 0 <= i < |es| :: es[i].Create? ==> es[i].t in w
  }

  ghost predicate NeverLoses(w: set<Task>) {
    forall es | RunsOver(w, es) && Exec(Anything, es).Some? :: NoneLost(Exec(Anything, es).value)
  }

  ghost predicate NoneLost(s: System) {
    forall id | id in s.history.created :: !Lost(s, id)
  }

  /** A run creates only tasks of its workload, under their own ids. */
  lemma {:induction false} CreatedFrom(w: set<Task>, es: seq<Event>)
    requires RunsOver(w, es) && Exec(Anything, es).Some?
    ensures forall id | id in Exec(Anything, es).value.history.created ::
              Exec(Anything, es).value.history.created[id] in w && Exec(Anything, es).value.history.created[id].id == id
  {
    hide Enabled, Apply;
    if es != [] {
      var before := es[..|es| - 1];
      assert RunsOver(w, before);
      CreatedFrom(w, before);
      CreatedByCreate(Exec(Anything, before).value, es[|es| - 1]);
    }
  }

  lemma SafeIfSeparate(w: set<Task>)
    requires Workload(w) && Separate(w) && WellNamed(w)
    ensures NeverLoses(w)
  {
    hide Lost, Exec, Waiting, Covered, Fresh, Agrees;
    forall es | RunsOver(w, es) && Exec(Anything, es).Some? ensures NoneLost(Exec(Anything, es).value) {
      var s := Exec(Anything, es).value;
      CreatedFrom(w, es);
      forall x, y | x in s.history.created && y in s.history.created && x != y
                    && s.history.created[x].queue == s.history.created[y].queue
        ensures x !in s.history.created[y].mentions
      {
        assert s.history.created[x] in w && s.history.created[y] in w;
      }
      AlwaysAnchored(Anything, es);
      AnchoredNoneLost(s);
    }
  }

  lemma AnchoredNoneLost(s: System)
    requires Anchored(s)
    ensures NoneLost(s)
  {
    hide Lost, RowAnchored, AttemptAnchored;
  }

  // ----- the losing runs -----

  /** b was started once and its worker died. */
  lemma Orphaned(b: Task, es: seq<Event>, s: System) returns (fs: seq<Event>, r: System, row: Task)
    requires Exec(Anything, es) == Some(s) && Queued(s, b, b) && Fresh(b)
    ensures Exec(Anything, fs) == Some(r) && r.attempts == map[] && Clean(r)
    ensures HasRow(r, b, row) && row.state == Running && OffReady(r, b)
    ensures Around(r, b.id) == Around(s, b.id) && (forall i | 0 <= i < |fs| :: fs[i].Create? ==> fs[i] in es)
  {
    hide Exec, Permits, Queued, Working, HandlerRuns, OffReady, Around;
    AnythingGoes();
    fs, r := Clear(Anything, b, b, es, s, 0, "n");
    r, row := StartIt(Anything, b, b, fs, r, 0, "n");
    fs := fs + [Start(0, NoFault)];
    r := Die(Anything, b, row, fs, r, 0, "n");
    fs := fs + [Crash("n")];
  }

  lemma AtStart(name: string)
    ensures Exec(Anything, []) == Some(Init) && Clean(Init) && EmptyAt(Init, name)
  {
  }

  /** In a queue whose name does not agree, the copy of a task whose worker died is in no place that anybody
      looks at, and its row is not pending. */
  lemma MisnamedRun(b: Task) returns (es: seq<Event>)
    requires Fresh(b) && !Agrees(b.queue)
    ensures RunsOver({b}, es) && Exec(Anything, es).Some? && Lost(Exec(Anything, es).value, b.id)
    ensures Exec(Anything, es).value.attempts == map[]
  {
    hide Exec, Agrees, Queued, Fresh;
    AnythingGoes();
    AtStart(b.queue);
    var s := Submit(Anything, b, [], Init);
    es := [] + [Create(b, 0)] + [Enqueue(b)];
    var row;
    es, s, row := Orphaned(b, es, s);
  }

  /** Removing a takes the only copy of b along, whose row is not pending. */
  lemma RemoveBoth(a: Task, b: Task, row: Task, es: seq<Event>, s: System) returns (r: System)
    requires Exec(Anything, es) == Some(s) && CancelIn(s, 0, Removing)
    requires s.cancellers[0].task.id == a.id && s.cancellers[0].task.queue == a.queue
    requires Queued(s, b, row) && row.state == Running && a.id != b.id && a.queue == b.queue && a.id in b.mentions
    requires b.id !in s.history.finished && b.id !in s.history.cancelled
    ensures Exec(Anything, es + [CancelRemove(0, false)]) == Some(r) && Lost(r, b.id)
  {
    hide Exec;
    r := Then(Anything, es, s, CancelRemove(0, false));
    assert b.Matches(a.id);
    var q := Get(r.redis, b.queue);
    assert q.ready == map[] && q.delayed == map[] && q.inflight == map[];
  }

  /** a is submitted; b, whose text mentions it, is submitted after it, started and back in the queue. */
  lemma BothThere(a: Task, b: Task) returns (es: seq<Event>, s: System, row: Task)
    requires Fresh(a) && Fresh(b) && a.id != b.id && a.queue == b.queue && Agrees(b.queue)
    ensures RunsOver({a, b}, es) && Exec(Anything, es) == Some(s) && Queued(s, b, row) && row.state == Running
    ensures a.id in s.rows && s.rows[a.id] == a && s.cancellers == map[]
    ensures s.history.finished == {} && s.history.cancelled == {}
  {
    hide Exec, Agrees, Queued, Fresh, OffReady, EmptyAt, DoCreate;
    AnythingGoes();
    AtStart(b.queue);
    s := CreateIt(Anything, a, [], Init);
    es := [] + [Create(a, 0)];
    StillEmpty(Init, s, b.queue);
    s := Submit(Anything, b, es, s);
    es := es + [Create(b, 0)] + [Enqueue(b)];
    es, s, row := Orphaned(b, es, s);
    var e;
    e, s := ComeBack(Anything, b, row, es, s);
    es := es + [e];
    assert (s.rows - {b.id})[a.id] == a;
  }

  lemma StillEmpty(s: System, r: System, name: string)
    requires r.redis == s.redis && EmptyAt(s, name)
    ensures EmptyAt(r, name)
  {
  }

  lemma LosingRun(a: Task, b: Task) returns (es: seq<Event>)
    requires Fresh(a) && Fresh(b) && a.id != b.id && a.queue == b.queue && a.id in b.mentions && Agrees(b.queue)
    ensures RunsOver({a, b}, es) && Exec(Anything, es).Some? && Lost(Exec(Anything, es).value, b.id)
  {
    hide Exec, Lost, Enabled, Apply, Agrees, Get;
    var s, row;
    es, s, row := BothThere(a, b);
    var r := CommitCancel(a, a, es, s);
    es := es + [CancelRead(0, a.id)] + [CancelWrite(0, NoFault)];
    assert (r.rows - {a.id})[b.id] == (s.rows - {a.id})[b.id];
    r := RemoveBoth(a, b, row, es, r);
    es := es + [CancelRemove(0, false)];
  }

  lemma Loses(w: set<Task>, es: seq<Event>, id: string)
    requires RunsOver(w, es) && Exec(Anything, es).Some? && Lost(Exec(Anything, es).value, id)
    ensures !NeverLoses(w)
  {
    hide Exec, Covered;
  }

  /** A workload never loses a task, in any run, if and only if no task mentions another one of its queue
      and every queue name agrees with its derived keys. */
  lemma LossFreeIff(w: set<Task>)
    requires Workload(w)
    ensures NeverLoses(w) <==> Separate(w) && WellNamed(w)
  {
    hide Lost, Exec, Fresh, Agrees;
    if !WellNamed(w) {
      var b :| b in w && !Agrees(b.queue);
      var es := MisnamedRun(b);
      Loses(w, es, b.id);
    } else if !Separate(w) {
      var a, b :| a in w && b in w && a.id != b.id && a.queue == b.queue && a.id in b.mentions;
      var es := LosingRun(a, b);
      Loses(w, es, b.id);
    } else {
      SafeIfSeparate(w);
    }
  }
}
