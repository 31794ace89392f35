/**
 * The task source (widesim/entity/TaskManager.java): it lists the tasks of
 * all workflows, ordered by entry time with ties kept in list order, and at
 * start schedules each task to the workflow engine at its entry time.
 */
module TaskManagers {
  import opened Tasks
  import opened Messages
  import opened Workflows

  /** The tasks of all workflows, workflow after workflow (`tasks.addAll` for each). */
  function AllTasks(ws: seq<Workflow>): (r: seq<Task>)
    ensures |ws| == 0 ==> r == []
  {
    if ws == [] then [] else AllTasks(ws[..|ws| - 1]) + ws[|ws| - 1].tasks
  }

  predicate SortedByEntry(s: seq<Task>)
  {
    forall i, j :: 0 <= i < j < |s| ==> s[i].entryTime <= s[j].entryTime
  }

  /** The tasks of `s` whose entry time is `k`, in the order of `s`. */
  function WithEntry(s: seq<Task>, k: real): (r: seq<Task>)
    ensures |r| <= |s|
  {
    if s == [] then [] else (if s[0].entryTime == k then [s[0]] else []) + WithEntry(s[1..], k)
  }

  /** Insertion of one task into a sorted list after every task that does not enter later. */
  function Insert(x: Task, s: seq<Task>): (r: seq<Task>)
    ensures multiset(r) == multiset(s) + multiset{x}
  {
    if s == [] then [x]
    else if s[0].entryTime > x.entryTime then [x] + s
    else
      assert s == [s[0]] + s[1..];
      [s[0]] + Insert(x, s[1..])
  }

  lemma SortedTail(s: seq<Task>)
    requires s != [] && SortedByEntry(s)
    ensures SortedByEntry(s[1..])
  {
    forall i, j | 0 <= i < j < |s[1..]| ensures s[1..][i].entryTime <= s[1..][j].entryTime {
      assert s[1..][i] == s[i + 1] && s[1..][j] == s[j + 1];
    }
  }

  /** Insertion keeps a list sorted. */
  lemma {:induction false} InsertSorted(x: Task, s: seq<Task>)
    requires SortedByEntry(s)
    ensures SortedByEntry(Insert(x, s))
    decreases |s|
  {
    if s == [] {
    } else if s[0].entryTime > x.entryTime {
      forall i, j | 0 <= i < j < |[x] + s| ensures ([x] + s)[i].entryTime <= ([x] + s)[j].entryTime {
        if i == 0 && j > 1 { assert s[0].entryTime <= s[j - 1].entryTime; }
      }
    } else {
      var rest := Insert(x, s[1..]);
      SortedTail(s);
      InsertSorted(x, s[1..]);
      forall i | 0 <= i < |rest| ensures s[0].entryTime <= rest[i].entryTime {
        assert rest[i] in multiset(s[1..]) + multiset{x};
        if rest[i] != x {
          var j :| 0 <= j < |s[1..]| && s[1..][j] == rest[i];
          assert s[j + 1] == rest[i];
        }
      }
      forall i, j | 0 <= i < j < |[s[0]] + rest|
        ensures ([s[0]] + rest)[i].entryTime <= ([s[0]] + rest)[j].entryTime
      {
        if i == 0 { assert ([s[0]] + rest)[j] == rest[j - 1]; }
      }
    }
  }

  /** A stable sort by entry time: insertion that places each later task after its equals. */
  function Sort(s: seq<Task>): (r: seq<Task>)
    ensures multiset(r) == multiset(s) && |r| == |s|
  {
    if s == [] then []
    else
      var r := Insert(s[|s| - 1], Sort(s[..|s| - 1]));
      assert s == s[..|s| - 1] + [s[|s| - 1]];
      assert |r| == |multiset(r)| == |multiset(s)| == |s|;
      r
  }

  /** The result is sorted by non-decreasing entry time. */
  lemma {:induction false} SortSorted(s: seq<Task>)
    ensures SortedByEntry(Sort(s))
    decreases |s|
  {
    if s != [] {
      SortSorted(s[..|s| - 1]);
      InsertSorted(s[|s| - 1], Sort(s[..|s| - 1]));
    }
  }

  lemma {:induction false} WithEntryAppend(a: seq<Task>, b: seq<Task>, k: real)
    ensures WithEntry(a + b, k) == WithEntry(a, k) + WithEntry(b, k)
    decreases |a|
  {
    if a == [] {
      assert a + b == b;
    } else {
      var head := if a[0].entryTime == k then [a[0]] else [];
      assert (a + b)[0] == a[0] && (a + b)[1..] == a[1..] + b;
      assert WithEntry(a + b, k) == head + WithEntry(a[1..] + b, k);
      WithEntryAppend(a[1..], b, k);
      ConcatAssoc(head, WithEntry(a[1..], k), WithEntry(b, k));
    }
  }

  /** No task of a list whose tasks all enter later than `k` enters at `k`. */
  lemma {:induction false} NoneEnterAt(s: seq<Task>, k: real)
    requires forall i :: 0 <= i < |s| ==> s[i].entryTime > k
    ensures WithEntry(s, k) == []
    decreases |s|
  {
    if s != [] {
      assert forall i :: 0 <= i < |s| - 1 ==> s[1..][i] == s[i + 1];
      NoneEnterAt(s[1..], k);
    }
  }

  lemma WithEntryOne(x: Task, k: real)
    ensures WithEntry([x], k) == if x.entryTime == k then [x] else []
  {
    assert [x][1..] == [];
  }

  /** A task placed before a sorted list whose first task enters later is the last of its entry time. */
  lemma InsertAtFrontIsStable(x: Task, s: seq<Task>, k: real)
    requires SortedByEntry(s) && s != [] && s[0].entryTime > x.entryTime
    ensures WithEntry([x] + s, k) == WithEntry(s, k) + WithEntry([x], k)
  {
    WithEntryOne(x, k);
    WithEntryAppend([x], s, k);
    if x.entryTime == k {
      forall i | 0 <= i < |s| ensures s[i].entryTime > k {
        if i > 0 { assert s[0].entryTime <= s[i].entryTime; }
      }
      NoneEnterAt(s, k);
    }
  }

  /** Inserting x adds it behind every task of its own entry time and leaves the other entry times alone. */
  lemma {:induction false} InsertIsStable(x: Task, s: seq<Task>, k: real)
    requires SortedByEntry(s)
    ensures WithEntry(Insert(x, s), k) == WithEntry(s, k) + WithEntry([x], k)
    decreases |s|
  {
    if s == [] {
      WithEntryOne(x, k);
      assert WithEntry(s, k) == [];
    } else if s[0].entryTime > x.entryTime {
      InsertAtFrontIsStable(x, s, k);
    } else {
      SortedTail(s);
      InsertIsStable(x, s[1..], k);
      ConsKeepsSuffix(s[0], s[1..], Insert(x, s[1..]), WithEntry([x], k), k);
      assert [s[0]] + s[1..] == s;
    }
  }

  /** Putting the same task in front of two lists whose entries at `k` differ by a suffix keeps that difference. */
  lemma ConsKeepsSuffix(h: Task, t: seq<Task>, rest: seq<Task>, tail: seq<Task>, k: real)
    requires WithEntry(rest, k) == WithEntry(t, k) + tail
    ensures WithEntry([h] + rest, k) == WithEntry([h] + t, k) + tail
  {
    WithEntryAppend([h], rest, k);
    WithEntryAppend([h], t, k);
    ConcatAssoc(WithEntry([h], k), WithEntry(t, k), tail);
  }

  lemma ConcatAssoc(a: seq<Task>, b: seq<Task>, c: seq<Task>)
    ensures a + (b + c) == (a + b) + c
  {
  }

  /** Tasks with equal entry times keep their original relative order. */
  lemma {:induction false} SortIsStable(s: seq<Task>, k: real)
    ensures WithEntry(Sort(s), k) == WithEntry(s, k)
    decreases |s|
  {
    if s != [] {
      var init, last := s[..|s| - 1], s[|s| - 1];
      SortSorted(init);
      calc {
        WithEntry(Sort(s), k);
        WithEntry(Insert(last, Sort(init)), k);
        { InsertIsStable(last, Sort(init), k); }
        WithEntry(Sort(init), k) + WithEntry([last], k);
        { SortIsStable(init, k); }
        WithEntry(init, k) + WithEntry([last], k);
        { WithEntryAppend(init, [last], k); assert init + [last] == s; }
        WithEntry(s, k);
      }
    }
  }

  /** Dropping the last task of a sorted list leaves it sorted, and no kept task enters later than the last. */
  lemma SortedInit(init: seq<Task>, last: Task)
    requires SortedByEntry(init + [last])
    ensures SortedByEntry(init)
    ensures forall i :: 0 <= i < |init| ==> init[i].entryTime <= last.entryTime
  {
    var s := init + [last];
    forall i, j | 0 <= i < j < |init| ensures init[i].entryTime <= init[j].entryTime {
      assert init[i] == s[i] && init[j] == s[j];
    }
    forall i | 0 <= i < |init| ensures init[i].entryTime <= last.entryTime {
      assert init[i] == s[i] && last == s[|init|];
    }
  }

  /** A sorted list is left as it is. */
  lemma {:induction false} SortOfSorted(s: seq<Task>)
    requires SortedByEntry(s)
    ensures Sort(s) == s
    decreases |s|
  {
    if s != [] {
      var init, last := s[..|s| - 1], s[|s| - 1];
      assert init + [last] == s;
      SortedInit(init, last);
      SortOfSorted(init);
      InsertAtEnd(last, init);
    }
  }

  /** A task that enters no earlier than every task of a list goes to its end. */
  lemma {:induction false} InsertAtEnd(x: Task, s: seq<Task>)
    requires forall i :: 0 <= i < |s| ==> s[i].entryTime <= x.entryTime
    ensures Insert(x, s) == s + [x]
    decreases |s|
  {
    if s != [] {
      assert forall i :: 0 <= i < |s| - 1 ==> s[1..][i] == s[i + 1];
      InsertAtEnd(x, s[1..]);
      assert [s[0]] + (s[1..] + [x]) == s + [x];
    }
  }

  /** The INCOMING_TASK events `startEntity` schedules to the engine, one per listed task, in list order. */
  function Schedules(ts: seq<Task>, engineId: int, clock: real): (r: seq<Event>)
  {
    if ts == [] then []
    else [Event(engineId, ts[0].entryTime - clock, IncomingTask, IncomingTaskMsg(ts[0]))] + Schedules(ts[1..], engineId, clock)
  }

  /** Each listed task is scheduled exactly once, at its position, with delay entry time minus the clock. */
  lemma {:induction false} SchedulesAreOnePerTask(ts: seq<Task>, engineId: int, clock: real)
    ensures |Schedules(ts, engineId, clock)| == |ts|
    ensures forall i :: 0 <= i < |ts| ==>
      Schedules(ts, engineId, clock)[i] == Event(engineId, ts[i].entryTime - clock, IncomingTask, IncomingTaskMsg(ts[i]))
    decreases |ts|
  {
    if ts != [] {
      SchedulesAreOnePerTask(ts[1..], engineId, clock);
      assert forall i :: 1 <= i < |ts| ==> ts[1..][i - 1] == ts[i];
    }
  }

  lemma {:induction false} SchedulesAppend(a: seq<Task>, b: seq<Task>, engineId: int, clock: real)
    ensures Schedules(a + b, engineId, clock) == Schedules(a, engineId, clock) + Schedules(b, engineId, clock)
    decreases |a|
  {
    if a == [] {
      assert a + b == b;
    } else {
      assert (a + b)[1..] == a[1..] + b;
      SchedulesAppend(a[1..], b, engineId, clock);
    }
  }

  class TaskManager {
    const workflowEngineId: int
    var tasks: seq<Task>
    var outbox: seq<Event>

    /** Lists the workflows' tasks in order, then sorts them by entry time. */
    constructor (workflowEngineId: int, workflows: seq<Workflow>)
      ensures this.workflowEngineId == workflowEngineId && outbox == []
      ensures tasks == Sort(AllTasks(workflows))
    {
      this.workflowEngineId := workflowEngineId;
      outbox := [];
      var all: seq<Task> := [];
      var i := 0;
      while i < |workflows|
        invariant 0 <= i <= |workflows|
        invariant all == AllTasks(workflows[..i])
      {
        assert workflows[..i + 1][..i] == workflows[..i];
        all := all + workflows[i].tasks;
        i := i + 1;
      }
      assert workflows[..i] == workflows;
      tasks := Sort(all);
    }

    /** `startEntity`: one INCOMING_TASK to the engine per listed task, in list order. */
    method StartEntity(clock: real)
      modifies this`outbox
      ensures outbox == old(outbox) + Schedules(tasks, workflowEngineId, clock)
    {
      var i := 0;
      while i < |tasks|
        invariant 0 <= i <= |tasks|
        invariant outbox == old(outbox) + Schedules(tasks[..i], workflowEngineId, clock)
      {
        var task := tasks[i];
        SchedulesAppend(tasks[..i], [task], workflowEngineId, clock);
        assert tasks[..i + 1] == tasks[..i] + [task];
        outbox := outbox + [Event(workflowEngineId, task.entryTime - clock, IncomingTask, IncomingTaskMsg(task))];
        i := i + 1;
      }
      assert tasks[..i] == tasks;
    }

    /** `processEvent` has an empty body: no event changes the manager. */
    method ProcessEvent(ev: Event)
      ensures tasks == old(tasks) && outbox == old(outbox)
    {
    }
  }

  /** The listed tasks are exactly the workflows' tasks, sorted, with ties in workflow and list order. */
  lemma ManagerOrder(ws: seq<Workflow>, k: real)
    ensures multiset(Sort(AllTasks(ws))) == multiset(AllTasks(ws))
    ensures SortedByEntry(Sort(AllTasks(ws)))
    ensures WithEntry(Sort(AllTasks(ws)), k) == WithEntry(AllTasks(ws), k)
  {
    SortSorted(AllTasks(ws));
    SortIsStable(AllTasks(ws), k);
  }
}
