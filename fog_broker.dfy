/**
 * The broker (widesim/entity/FogBroker.java): it gathers the devices'
 * characteristics, runs VM create and destroy rounds tracked as sets of
 * requests and acks, keeps the task-to-VM ledger, dispatches queued tasks
 * onto created VMs with a stage-out request per parent, and handles task
 * completions, ending a round with the provisioner once every dispatched
 * task has completed.
 *
 * Where Java would throw (a missing map entry unboxed, a null task), the
 * handlers report `crashed` and promise nothing more: the exception ends
 * the simulation.
 */
module FogBrokers {
  import opened Wrappers
  import opened TaskStates
  import opened Tasks
  import opened Messages
  import SimpleVmToFogDevice
  import SimpleProvisioner
  import FailureGeneration
  import FailureConfig

  /** `maximumCycle`: the broker never redispatches a task on a later cycle itself. */
  const MaximumCycle := 0

  /** The delay before a root task's EXECUTE_TASK_WITH_DATA. */
  const StageInDelay: real := 0.11

  // --- an ascending enumeration of a set of ids

  /** The least id of a non-empty set, found by removing an arbitrary element. */
  ghost function Least(s: set<int>): (m: int)
    requires s != {}
    ensures m in s && forall y :: y in s ==> m <= y
    decreases |s|
  {
    if forall y :: y !in s then assert false; 0
    else
      var x :| x in s;
      if s == {x} then x
      else
        var m := Least(s - {x});
        assert forall y :: y in s && y != x ==> y in s - {x};
        if x <= m then x else m
  }

  /** The least id, chosen as the one value that is a least element (`Least` is its witness). */
  function MinOf(s: set<int>): (m: int)
    requires s != {}
    ensures m in s && forall y :: y in s ==> m <= y
  {
    var w := Least(s);
    var m :| m in s && forall y :: y in s ==> m <= y;
    m
  }

  /**
   * The ids of a set in ascending order: the order in which the broker visits
   * a task's parents (Java's HashSet of small non-negative integers iterates
   * them so).
   */
  function Ascending(s: set<int>): (r: seq<int>)
    ensures |r| == |s| && forall x :: x in r <==> x in s
    ensures forall i, j :: 0 <= i < j < |r| ==> r[i] < r[j]
    decreases |s|
  {
    if s == {} then []
    else
      var m := MinOf(s);
      var rest := Ascending(s - {m});
      assert forall j :: 0 <= j < |rest| ==> m < rest[j] by {
        forall j | 0 <= j < |rest| ensures m < rest[j] {
          assert rest[j] in s - {m};
        }
      }
      [m] + rest
  }

  // --- the dispatch pass, on values

  /** What dispatch reads of a queued task. */
  datatype Entry = Entry(task: Task, id: int, cycle: int, parents: set<int>, needed: map<int, seq<string>>, state: TaskState)

  /**
   * The view dispatch has of the broker: the merged ledger, the created VM
   * ids, the VM placement and each stored task's per-cycle data decisions.
   */
  datatype View = View(ledger: map<int, int>, created: set<int>, placement: map<int, int>,
                       decisions: map<int, map<int, bool>>)

  /** Dispatch sends a queued task iff its ledger VM is a created one. */
  predicate Dispatched(e: Entry, v: View)
  {
    e.id in v.ledger && v.ledger[e.id] in v.created
  }

  /**
   * The STAGE_OUT request asking the device of parent `p` to send its output
   * for the entry's cycle to `dst`; None where Java unboxes a missing ledger
   * or placement entry, finds no stored parent, or unboxes a null decision.
   */
  function StageOut(p: int, e: Entry, v: View, dst: int): (r: Option<Event>)
    ensures r.Some? <==> p in v.ledger && v.ledger[p] in v.placement && p in v.decisions && e.cycle in v.decisions[p]
    ensures r.Some? ==> r.value.tag == StageOutData
    ensures r.Some? ==> r.value == SendNow(v.placement[v.ledger[p]], StageOutData,
      StageOutDataMsg(p, e.cycle, dst, v.decisions[p][e.cycle], if p in e.needed then Some(e.needed[p]) else None))
  {
    if p in v.ledger && v.ledger[p] in v.placement && p in v.decisions && e.cycle in v.decisions[p] then
      Some(SendNow(v.placement[v.ledger[p]], StageOutData,
        StageOutDataMsg(p, e.cycle, dst, v.decisions[p][e.cycle], if p in e.needed then Some(e.needed[p]) else None)))
    else None
  }

  /** The stage-out requests for a list of parents, in list order; None if any one fails. */
  function StageOuts(ps: seq<int>, e: Entry, v: View, dst: int): (r: Option<seq<Event>>)
    ensures r.Some? <==> forall i :: 0 <= i < |ps| ==> StageOut(ps[i], e, v, dst).Some?
    ensures r.Some? ==> |r.value| == |ps| && forall i :: 0 <= i < |ps| ==> r.value[i] == StageOut(ps[i], e, v, dst).value
    ensures r.Some? ==> forall i :: 0 <= i < |ps| ==> r.value[i].tag == StageOutData
  {
    if ps == [] then Some([])
    else
      var n := |ps| - 1;
      var init := StageOuts(ps[..n], e, v, dst);
      assert forall i :: 0 <= i < n ==> ps[..n][i] == ps[i];
      match init
      case None => None
      case Some(s) =>
        match StageOut(ps[n], e, v, dst)
        case None => None
        case Some(ev) => Some(s + [ev])
  }

  /**
   * The execute request for a dispatched task: EXECUTE_TASK_WITH_DATA after
   * the stage-in delay for a root task, EXECUTE_TASK at once otherwise.
   */
  function ExecuteEvent(e: Entry, vm: int, dst: int): (ev: Event)
    ensures ev.target == dst && ev.payload == ExecuteTaskMsg(e.task, vm)
    ensures e.parents == {} ==> ev.tag == ExecuteTaskWithData && ev.delay == StageInDelay
    ensures e.parents != {} ==> ev.tag == ExecuteTask && ev.delay == 0.0
  {
    if e.parents == {} then Event(dst, StageInDelay, ExecuteTaskWithData, ExecuteTaskMsg(e.task, vm))
    else SendNow(dst, ExecuteTask, ExecuteTaskMsg(e.task, vm))
  }

  /**
   * Everything dispatching one task sends: one stage-out per parent, in
   * ascending id order, each asking the parent's device to send to this
   * task's device, then the execute request; None where Java throws.
   */
  function DispatchEvents(e: Entry, v: View): (r: Option<seq<Event>>)
    requires Dispatched(e, v)
    ensures r.Some? <==> (v.ledger[e.id] in v.placement &&
      forall p :: p in e.parents ==> StageOut(p, e, v, v.placement[v.ledger[e.id]]).Some?)
    ensures r.Some? ==>
      var ps, vm := Ascending(e.parents), v.ledger[e.id];
      && |r.value| == |e.parents| + 1
      && r.value[|e.parents|] == ExecuteEvent(e, vm, v.placement[vm])
      && forall i :: 0 <= i < |ps| ==> r.value[i] == StageOut(ps[i], e, v, v.placement[vm]).value
    ensures r.Some? ==> forall i :: 0 <= i < |e.parents| ==> r.value[i].tag == StageOutData
  {
    var vm := v.ledger[e.id];
    if vm !in v.placement then None
    else
      var dst := v.placement[vm];
      match StageOuts(Ascending(e.parents), e, v, dst)
      case None => None
      case Some(s) => Some(s + [ExecuteEvent(e, vm, dst)])
  }

  /** Java throws on this entry: its ledger VM is missing while some VM is created, or dispatching it fails. */
  predicate Fails(e: Entry, v: View)
  {
    if v.created != {} && e.id !in v.ledger then true
    else Dispatched(e, v) && DispatchEvents(e, v).None?
  }

  /** The result of the queue scan: the tasks left queued, the events sent and the entries dispatched. */
  datatype Pass = Pass(kept: seq<Entry>, sent: seq<Event>, gone: seq<Entry>)

  /** The iterator walk over the queue, as a value; None where Java throws. */
  function Scan(es: seq<Entry>, v: View): (r: Option<Pass>)
  {
    if es == [] then Some(Pass([], [], []))
    else
      var n := |es| - 1;
      var init := Scan(es[..n], v);
      match init
      case None => None
      case Some(p) =>
        var e := es[n];
        if Fails(e, v) then None
        else if Dispatched(e, v) then Some(Pass(p.kept, p.sent + DispatchEvents(e, v).value, p.gone + [e]))
        else Some(Pass(p.kept + [e], p.sent, p.gone))
  }

  /** The scan throws exactly when some queued entry fails. */
  lemma {:induction false} ScanSucceedsIff(es: seq<Entry>, v: View)
    ensures Scan(es, v).Some? <==> forall i :: 0 <= i < |es| ==> !Fails(es[i], v)
    decreases |es|
  {
    if es != [] {
      var n := |es| - 1;
      ScanSucceedsIff(es[..n], v);
      assert forall i :: 0 <= i < n ==> es[..n][i] == es[i];
    }
  }

  // --- what the scan leaves queued and what it sends

  /** The entries, in order, that dispatch leaves in the queue. */
  function Undispatched(es: seq<Entry>, v: View): (r: seq<Entry>)
  {
    if es == [] then [] else (if Dispatched(es[0], v) then [] else [es[0]]) + Undispatched(es[1..], v)
  }

  /** The entries, in order, that dispatch sends. */
  function DispatchedIn(es: seq<Entry>, v: View): (r: seq<Entry>)
  {
    if es == [] then [] else (if Dispatched(es[0], v) then [es[0]] else []) + DispatchedIn(es[1..], v)
  }

  lemma {:induction false} FiltersAppendOne(es: seq<Entry>, e: Entry, v: View)
    ensures Undispatched(es + [e], v) == Undispatched(es, v) + (if Dispatched(e, v) then [] else [e])
    ensures DispatchedIn(es + [e], v) == DispatchedIn(es, v) + (if Dispatched(e, v) then [e] else [])
    decreases |es|
  {
    if es == [] {
      assert Undispatched([e], v) == (if Dispatched(e, v) then [] else [e]) + Undispatched([], v);
      assert DispatchedIn([e], v) == (if Dispatched(e, v) then [e] else []) + DispatchedIn([], v);
    } else {
      assert (es + [e])[1..] == es[1..] + [e];
      FiltersAppendOne(es[1..], e, v);
    }
  }

  /**
   * The queue keeps, in their original order, exactly the tasks whose VM is
   * not a created one; the dispatched tasks leave it in queue order.
   */
  lemma {:induction false} ScanFilters(es: seq<Entry>, v: View)
    requires Scan(es, v).Some?
    ensures Scan(es, v).value.kept == Undispatched(es, v)
    ensures Scan(es, v).value.gone == DispatchedIn(es, v)
    decreases |es|
  {
    if es != [] {
      var n := |es| - 1;
      assert Scan(es[..n], v).Some?;
      ScanFilters(es[..n], v);
      FiltersAppendOne(es[..n], es[n], v);
      assert es[..n] + [es[n]] == es;
    }
  }

  /** Every queued task either stays or is dispatched, exactly once. */
  lemma {:induction false} ScanPartitions(es: seq<Entry>, v: View)
    requires Scan(es, v).Some?
    ensures multiset(Scan(es, v).value.kept) + multiset(Scan(es, v).value.gone) == multiset(es)
    ensures forall e :: e in Scan(es, v).value.kept ==> e in es && !Dispatched(e, v)
    ensures forall e :: e in Scan(es, v).value.gone ==> e in es && Dispatched(e, v)
    decreases |es|
  {
    if es != [] {
      var n := |es| - 1;
      assert Scan(es[..n], v).Some?;
      ScanPartitions(es[..n], v);
      assert es[..n] + [es[n]] == es;
    }
  }

  predicate IsExecute(ev: Event)
  {
    ev.tag == ExecuteTask || ev.tag == ExecuteTaskWithData
  }

  /**
   * Execute requests go only to created VMs, to the device the VM is placed
   * on, and carry a dispatched task.
   */
  lemma {:induction false} ExecutesOnCreatedVms(es: seq<Entry>, v: View)
    requires Scan(es, v).Some?
    ensures forall ev :: ev in Scan(es, v).value.sent && IsExecute(ev) ==>
      && ev.payload.ExecuteTaskMsg?
      && ev.payload.vmId in v.created && ev.payload.vmId in v.placement
      && ev.target == v.placement[ev.payload.vmId]
      && exists e :: e in Scan(es, v).value.gone && Dispatched(e, v) && e.task == ev.payload.task && v.ledger[e.id] == ev.payload.vmId
    decreases |es|
  {
    if es != [] {
      var n := |es| - 1;
      var e := es[n];
      assert Scan(es[..n], v).Some?;
      ExecutesOnCreatedVms(es[..n], v);
      var p := Scan(es[..n], v).value;
      if Dispatched(e, v) {
        var d := DispatchEvents(e, v).value;
        assert Scan(es, v).value.sent == p.sent + d;
        assert Scan(es, v).value.gone == p.gone + [e];
        OnlyExecuteIsLast(e, v);
      }
    }
  }

  /** The one execute request among a task's dispatch events is the last one. */
  lemma OnlyExecuteIsLast(e: Entry, v: View)
    requires Dispatched(e, v) && DispatchEvents(e, v).Some?
    ensures var vm := v.ledger[e.id];
      forall ev :: ev in DispatchEvents(e, v).value && IsExecute(ev) ==> ev == ExecuteEvent(e, vm, v.placement[vm])
  {
    var d := DispatchEvents(e, v).value;
    var k := |e.parents|;
    assert d == d[..k] + [d[k]];
    OnlyLastIsExecute(d[..k], d[k]);
  }

  lemma OnlyLastIsExecute(stageOuts: seq<Event>, last: Event)
    requires forall j :: 0 <= j < |stageOuts| ==> stageOuts[j].tag == StageOutData
    ensures forall ev :: ev in stageOuts + [last] && IsExecute(ev) ==> ev == last
  {
  }

  /** Stage-outs followed by one execute request count one execute request. */
  lemma CountOneExecute(stageOuts: seq<Event>, exec: Event)
    requires forall j :: 0 <= j < |stageOuts| ==> stageOuts[j].tag == StageOutData
    requires IsExecute(exec)
    ensures CountTag(stageOuts + [exec], ExecuteTask) + CountTag(stageOuts + [exec], ExecuteTaskWithData) == 1
  {
    NoReleaseCounted(stageOuts, ExecuteTask);
    NoReleaseCounted(stageOuts, ExecuteTaskWithData);
    CountTagAppend(stageOuts, [exec], ExecuteTask);
    CountTagAppend(stageOuts, [exec], ExecuteTaskWithData);
    assert [exec][1..] == [];
  }

  /** Dispatching one task sends one execute request: its stage-outs are no execute requests. */
  lemma OneExecuteEach(e: Entry, v: View)
    requires Dispatched(e, v) && DispatchEvents(e, v).Some?
    ensures CountTag(DispatchEvents(e, v).value, ExecuteTask) + CountTag(DispatchEvents(e, v).value, ExecuteTaskWithData) == 1
  {
    var d := DispatchEvents(e, v).value;
    var k := |e.parents|;
    assert d == d[..k] + [d[k]];
    CountOneExecute(d[..k], d[k]);
  }

  /** The scan sends exactly one execute request per dispatched task. */
  lemma {:induction false} OneExecutePerDispatch(es: seq<Entry>, v: View)
    requires Scan(es, v).Some?
    ensures CountTag(Scan(es, v).value.sent, ExecuteTask) + CountTag(Scan(es, v).value.sent, ExecuteTaskWithData)
         == |Scan(es, v).value.gone|
    decreases |es|
  {
    if es != [] {
      var n := |es| - 1;
      var e := es[n];
      assert Scan(es[..n], v).Some?;
      OneExecutePerDispatch(es[..n], v);
      var p := Scan(es[..n], v).value;
      if Dispatched(e, v) {
        var d := DispatchEvents(e, v).value;
        assert Scan(es, v).value.sent == p.sent + d;
        OneExecuteEach(e, v);
        CountTagAppend(p.sent, d, ExecuteTask);
        CountTagAppend(p.sent, d, ExecuteTaskWithData);
      }
    }
  }

  /**
   * A dispatched task's parents each get exactly one stage-out request among
   * its dispatch events: the parent's StageOut, sent to the parent's device.
   */
  lemma StageOutPerParent(e: Entry, v: View, p: int)
    requires Dispatched(e, v) && DispatchEvents(e, v).Some? && p in e.parents
    ensures var d, dst := DispatchEvents(e, v).value, v.placement[v.ledger[e.id]];
      exists i :: 0 <= i < |e.parents| && d[i] == StageOut(p, e, v, dst).value
        && forall j :: 0 <= j < |e.parents| && j != i ==> !(d[j].payload.StageOutDataMsg? && d[j].payload.taskId == p)
  {
    var d, dst := DispatchEvents(e, v).value, v.placement[v.ledger[e.id]];
    var ps := Ascending(e.parents);
    var i :| 0 <= i < |ps| && ps[i] == p;
    forall j | 0 <= j < |e.parents| && j != i ensures !(d[j].payload.StageOutDataMsg? && d[j].payload.taskId == p) {
      assert d[j] == StageOut(ps[j], e, v, dst).value;
      if j < i { assert ps[j] < ps[i]; } else { assert ps[i] < ps[j]; }
    }
  }

  // --- reading the broker's tasks

  /** What dispatch reads of a queued task. */
  function EntryOf(t: Task): Entry
    reads t`cycle, t`parents, t`neededFromParent, t`taskState
  {
    Entry(t, t.taskId, t.cycle, t.parents, t.neededFromParent, t.taskState)
  }

  function EntriesOf(q: seq<Task>): (r: seq<Entry>)
    reads q`cycle, q`parents, q`neededFromParent, q`taskState
    ensures |r| == |q| && forall i :: 0 <= i < |q| ==> r[i] == EntryOf(q[i])
  {
    if q == [] then [] else [EntryOf(q[0])] + EntriesOf(q[1..])
  }

  function TasksOf(es: seq<Entry>): (r: seq<Task>)
    ensures |r| == |es| && forall i :: 0 <= i < |es| ==> r[i] == es[i].task
  {
    if es == [] then [] else [es[0].task] + TasksOf(es[1..])
  }

  /** Each stored task's per-cycle data decisions, by task id. */
  function DecisionsOf(tasks: map<int, Task>): (r: map<int, map<int, bool>>)
    reads tasks.Values`cycleToGeneratedData, (set t | t in tasks.Values :: t.cycleToGeneratedData)`decided
    ensures r.Keys == tasks.Keys && forall k :: k in tasks ==> r[k] == tasks[k].cycleToGeneratedData.decided
  {
    map k | k in tasks :: tasks[k].cycleToGeneratedData.decided
  }

  function CreatedIds(vms: seq<Vm>): set<int>
  {
    set vm | vm in vms :: vm.id
  }

  /** The timestamp tables of the queued tasks: what dispatch may stamp. */
  ghost function QueueStates(q: seq<Task>): set<TaskState>
    reads q`taskState
  {
    set t | t in q :: t.taskState
  }

  ghost function StatesOf(es: seq<Entry>): set<TaskState>
  {
    set e | e in es :: e.state
  }

  /** The cycles of the entries whose timestamp table is `ts`. */
  ghost function CyclesOf(es: seq<Entry>, ts: TaskState): set<int>
  {
    set e | e in es && e.state == ts :: e.cycle
  }

  /** Each dispatched entry has its exit-broker timestamp for its cycle set to `clock`. */
  ghost predicate Exited(es: seq<Entry>, clock: real)
    reads StatesOf(es)`states
  {
    forall e :: e in es ==> e.cycle in e.state.states && e.state.states[e.cycle].exitBrokerWaitingQueue == clock
  }

  /** `tables` holds the current timestamp table of each of its objects, and has one for every object of `S`. */
  ghost predicate Captured(tables: map<TaskState, map<int, State>>, S: set<TaskState>)
    reads tables.Keys`states
  {
    S <= tables.Keys && forall ts :: ts in tables ==> tables[ts] == ts.states
  }

  /** The snapshot `tables` with one more setter call on the table of `ts`. */
  ghost function Stamped(tables: map<TaskState, map<int, State>>, ts: TaskState, cycle: int, f: Stamp, time: real)
    : map<TaskState, map<int, State>>
  {
    if ts in tables then tables[ts := Recorded(tables[ts], cycle, f, time)] else tables
  }

  /**
   * Each table of `tables` has the exit-broker timestamp set at `clock` for
   * the cycles of the entries in `gone` that use it, and is otherwise as it
   * was in `tables`.
   */
  ghost predicate ExitsStamped(tables: map<TaskState, map<int, State>>, gone: seq<Entry>, clock: real)
    reads tables.Keys`states
  {
    forall ts :: ts in tables ==> ts.states == RecordedAll(tables[ts], CyclesOf(gone, ts), {ExitBrokerWaitingQueue}, clock)
  }

  /** The iterator walk of `dispatchTasks` over the queue snapshot; None where Java throws. */
  method ScanQueue(es: seq<Entry>, v: View) returns (r: Option<Pass>)
    ensures r == Scan(es, v)
  {
    var kept, sent, gone := [], [], [];
    var i := 0;
    while i < |es|
      invariant 0 <= i <= |es|
      invariant Scan(es[..i], v) == Some(Pass(kept, sent, gone))
    {
      var e := es[i];
      assert es[..i + 1][..i] == es[..i];
      var mapped := if e.id in v.ledger then Some(v.ledger[e.id]) else None;
      if v.created != {} && mapped.None? {
        assert Fails(es[i], v);
        ScanSucceedsIff(es, v);
        return None;
      }
      if mapped.Some? && mapped.value in v.created {
        var events := DispatchEvents(e, v);
        if events.None? {
          assert Fails(es[i], v);
          ScanSucceedsIff(es, v);
          return None;
        }
        sent := sent + events.value;
        gone := gone + [e];
      } else {
        kept := kept + [e];
      }
      i := i + 1;
    }
    assert es[..i] == es;
    r := Some(Pass(kept, sent, gone));
  }

  lemma CyclesOfAppend(es: seq<Entry>, e: Entry, ts: TaskState)
    ensures CyclesOf(es + [e], ts) == CyclesOf(es, ts) + (if e.state == ts then {e.cycle} else {})
  {
    var a, b := CyclesOf(es + [e], ts), CyclesOf(es, ts) + (if e.state == ts then {e.cycle} else {});
    forall c | c in a ensures c in b {
      var x :| x in es + [e] && x.state == ts && x.cycle == c;
      if x != e { assert x in es; }
    }
    forall c | c in b ensures c in a {
      if c in CyclesOf(es, ts) {
        var x :| x in es && x.state == ts && x.cycle == c;
        assert x in es + [e];
      } else {
        assert e in es + [e];
      }
    }
  }

  /** The timestamp tables of a set of objects, as they are now. */
  lemma Snapshot(S: set<TaskState>) returns (s0: map<TaskState, map<int, State>>)
    ensures forall ts :: ts in S ==> ts in s0 && s0[ts] == ts.states
  {
    s0 := map ts | ts in S :: ts.states;
  }

  /** The exit-broker timestamps of the dispatched entries, one setter call each, in dispatch order. */
  method StampExits(gone: seq<Entry>, clock: real)
    modifies StatesOf(gone)`states
    ensures forall ts :: ts in StatesOf(gone) ==>
      ts.states == RecordedAll(old(ts.states), CyclesOf(gone, ts), {ExitBrokerWaitingQueue}, clock)
    ensures Exited(gone, clock)
  {
    ghost var s0 := Snapshot(StatesOf(gone));
    var i := 0;
    while i < |gone|
      invariant 0 <= i <= |gone|
      invariant forall ts :: ts in StatesOf(gone) ==>
        ts.states == RecordedAll(s0[ts], CyclesOf(gone[..i], ts), {ExitBrokerWaitingQueue}, clock)
    {
      var e := gone[i];
      ghost var done, done' := gone[..i], gone[..i + 1];
      assert done' == done + [e];
      assert e.state in StatesOf(gone);
      RecordedAllExtendOne(s0[e.state], CyclesOf(done, e.state), ExitBrokerWaitingQueue, clock, e.cycle);
      label before:
      e.state.SetExitBrokerWaitingQueue(e.cycle, clock);
      forall ts | ts in StatesOf(gone)
        ensures ts.states == RecordedAll(s0[ts], CyclesOf(done', ts), {ExitBrokerWaitingQueue}, clock)
      {
        CyclesOfAppend(done, e, ts);
        if ts != e.state {
          assert CyclesOf(done', ts) == CyclesOf(done, ts);
          assert ts.states == old@before(ts.states);
        } else {
          assert CyclesOf(done', ts) == CyclesOf(done, ts) + {e.cycle};
          assert ts.states == Recorded(old@before(ts.states), e.cycle, ExitBrokerWaitingQueue, clock);
        }
      }
      i := i + 1;
    }
    assert gone[..i] == gone;
    forall e | e in gone ensures e.cycle in e.state.states && e.state.states[e.cycle].exitBrokerWaitingQueue == clock {
      RecordedAllCases(s0[e.state], CyclesOf(gone, e.state), {ExitBrokerWaitingQueue}, clock);
    }
  }

  // --- VM create and destroy requests

  datatype RequestKind = CreateVm | DestroyVm

  /** The request for one VM to the device hosting it: VM_CREATE carries the VM the list yields for the id (or none), VM_DESTROY the id. */
  function Request(kind: RequestKind, vmId: int, device: int, vmList: seq<Vm>): (ev: Event)
  {
    match kind
    case CreateVm => SendNow(device, VmCreate, VmCreateMsg(GetById(vmList, vmId)))
    case DestroyVm => SendNow(device, VmDestroy, VmDestroyMsg(vmId))
  }

  /** The requests of a loop over VM ids, in order; None where an id has no placement (Java unboxes null). */
  function Requests(kind: RequestKind, ids: seq<int>, placement: map<int, int>, vmList: seq<Vm>): (r: Option<seq<Event>>)
    ensures r.Some? <==> forall i :: 0 <= i < |ids| ==> ids[i] in placement
    ensures r.Some? ==> |r.value| == |ids|
    ensures r.Some? ==> forall i :: 0 <= i < |ids| ==> r.value[i] == Request(kind, ids[i], placement[ids[i]], vmList)
  {
    if ids == [] then Some([])
    else if ids[0] !in placement then None
    else
      var rest := Requests(kind, ids[1..], placement, vmList);
      assert forall i :: 1 <= i < |ids| ==> ids[1..][i - 1] == ids[i];
      if rest.None? then None
      else Some([Request(kind, ids[0], placement[ids[0]], vmList)] + rest.value)
  }

  /** The devices the requests go to. */
  function DevicesOf(ids: seq<int>, placement: map<int, int>): (r: set<int>)
    requires forall i :: 0 <= i < |ids| ==> ids[i] in placement
    ensures forall d :: d in r <==> exists i :: 0 <= i < |ids| && placement[ids[i]] == d
  {
    set i | 0 <= i < |ids| :: placement[ids[i]]
  }

  lemma DevicesOfAppendOne(ids: seq<int>, id: int, placement: map<int, int>)
    requires (forall i :: 0 <= i < |ids| ==> ids[i] in placement) && id in placement
    ensures DevicesOf(ids + [id], placement) == DevicesOf(ids, placement) + {placement[id]}
  {
    var ids' := ids + [id];
    assert forall i :: 0 <= i < |ids| ==> ids'[i] == ids[i];
    assert ids'[|ids|] == id;
  }

  lemma RequestsAppendOne(kind: RequestKind, ids: seq<int>, id: int, placement: map<int, int>, vmList: seq<Vm>)
    requires Requests(kind, ids, placement, vmList).Some? && id in placement
    ensures Requests(kind, ids + [id], placement, vmList)
         == Some(Requests(kind, ids, placement, vmList).value + [Request(kind, id, placement[id], vmList)])
  {
    var ids' := ids + [id];
    assert forall i :: 0 <= i < |ids| ==> ids'[i] == ids[i];
    var a := Requests(kind, ids', placement, vmList);
    assert a.Some?;
    assert a.value == Requests(kind, ids, placement, vmList).value + [Request(kind, id, placement[id], vmList)];
  }

  /** An id without a placement anywhere in the list makes the whole loop fail. */
  lemma RequestsMissing(kind: RequestKind, ids: seq<int>, i: int, placement: map<int, int>, vmList: seq<Vm>)
    requires 0 <= i < |ids| && ids[i] !in placement
    ensures Requests(kind, ids, placement, vmList).None?
  {
    assert !(forall j :: 0 <= j < |ids| ==> ids[j] in placement);
  }

  /**
   * A loop over a VM id list (for `toBeDestroyed` or `toBeCreated`): one
   * request per id, to the device the placement gives it, each device added to
   * the sent set; None where an id has no placement.
   */
  method SendRequests(kind: RequestKind, ids: seq<int>, placement: map<int, int>, vmList: seq<Vm>)
    returns (r: Option<(seq<Event>, set<int>)>)
    ensures r.None? <==> Requests(kind, ids, placement, vmList).None?
    ensures r.Some? ==> r.value.0 == Requests(kind, ids, placement, vmList).value && r.value.1 == DevicesOf(ids, placement)
  {
    var sent, devices := [], {};
    var i := 0;
    while i < |ids|
      invariant 0 <= i <= |ids|
      invariant Requests(kind, ids[..i], placement, vmList) == Some(sent)
      invariant devices == DevicesOf(ids[..i], placement)
    {
      var vmId := ids[i];
      assert ids[..i + 1] == ids[..i] + [vmId];
      if vmId !in placement {
        RequestsMissing(kind, ids, i, placement, vmList);
        return None;
      }
      var fogDeviceId := placement[vmId];
      RequestsAppendOne(kind, ids[..i], vmId, placement, vmList);
      DevicesOfAppendOne(ids[..i], vmId, placement);
      sent := sent + [Request(kind, vmId, fogDeviceId, vmList)];
      devices := devices + {fogDeviceId};
      i := i + 1;
    }
    assert ids[..i] == ids;
    r := Some((sent, devices));
  }

  /** An empty id list yields no request and no device. */
  lemma NoRequests(kind: RequestKind, placement: map<int, int>, vmList: seq<Vm>)
    ensures Requests(kind, [], placement, vmList) == Some([]) && DevicesOf([], placement) == {}
  {
  }

  /** `order` lists every key of `m` exactly once. */
  ghost predicate KeyOrder(order: seq<int>, keys: set<int>)
  {
    && (forall i, j :: 0 <= i < j < |order| ==> order[i] != order[j])
    && (forall x :: x in order <==> x in keys)
  }

  /**
   * The first create round's loop over the placement's keys in hash order:
   * one VM_CREATE per mapped VM, in the order `order` the loop visited them.
   */
  method InitialCreates(placement: map<int, int>, vmList: seq<Vm>) returns (sent: seq<Event>, ghost order: seq<int>)
    ensures KeyOrder(order, placement.Keys)
    ensures Requests(CreateVm, order, placement, vmList) == Some(sent)
  {
    sent, order := [], [];
    var pending := placement.Keys;
    while pending != {}
      invariant pending <= placement.Keys
      invariant forall i, j :: 0 <= i < j < |order| ==> order[i] != order[j]
      invariant forall x :: x in order <==> x in placement.Keys && x !in pending
      invariant Requests(CreateVm, order, placement, vmList) == Some(sent)
      decreases pending
    {
      if forall x :: x !in pending { assert false; }
      var vmId :| vmId in pending;
      pending := pending - {vmId};
      RequestsAppendOne(CreateVm, order, vmId, placement, vmList);
      sent := sent + [Request(CreateVm, vmId, placement[vmId], vmList)];
      order := order + [vmId];
    }
  }

  /** The VMs the list yields for the kept-alive ids (`stayAlive.map(getById)`). */
  function KeptVms(vmList: seq<Vm>, ids: seq<int>): (r: seq<Vm>)
    requires forall i :: 0 <= i < |ids| ==> GetById(vmList, ids[i]).Some?
    ensures |r| == |ids| && forall i :: 0 <= i < |ids| ==> r[i] == GetById(vmList, ids[i]).value
  {
    if ids == [] then []
    else
      assert forall i :: 1 <= i < |ids| ==> ids[1..][i - 1] == ids[i];
      [GetById(vmList, ids[0]).value] + KeptVms(vmList, ids[1..])
  }

  /** Looking up the ids of VMs the list yields gives back those VMs: keeping every created VM alive changes nothing. */
  lemma KeptVmsAreCreated(vmList: seq<Vm>, created: seq<Vm>)
    requires forall i :: 0 <= i < |created| ==> GetById(vmList, created[i].id) == Some(created[i])
    ensures var ids := SimpleProvisioner.VmIds(created);
      (forall i :: 0 <= i < |ids| ==> GetById(vmList, ids[i]).Some?) && KeptVms(vmList, ids) == created
  {
  }

  /** The RESOURCE_REQUEST events `init` sends, one per device id, in list order. */
  function ResourceRequests(ids: seq<int>): (r: seq<Event>)
    ensures |r| == |ids| && forall i :: 0 <= i < |ids| ==> r[i] == SendNow(ids[i], ResourceRequest, NoData)
  {
    if ids == [] then []
    else
      assert forall i :: 1 <= i < |ids| ==> ids[1..][i - 1] == ids[i];
      [SendNow(ids[0], ResourceRequest, NoData)] + ResourceRequests(ids[1..])
  }

  lemma ResourceRequestsAppendOne(ids: seq<int>, id: int)
    ensures ResourceRequests(ids + [id]) == ResourceRequests(ids) + [SendNow(id, ResourceRequest, NoData)]
  {
    var a, b := ResourceRequests(ids + [id]), ResourceRequests(ids) + [SendNow(id, ResourceRequest, NoData)];
    assert |a| == |b|;
    forall i | 0 <= i < |a| ensures a[i] == b[i] {
      if i < |ids| { assert (ids + [id])[i] == ids[i]; }
    }
  }

  /**
   * A recreate round records the devices it sends to, while each device
   * acknowledges with the VM's id: when a recreated VM's device id is no VM
   * id of the round, the acks of all its VMs never cover the sent set.
   */
  lemma RecreateAcksNeverCover(ids: seq<int>, placement: map<int, int>, k: int)
    requires forall i :: 0 <= i < |ids| ==> ids[i] in placement
    requires 0 <= k < |ids| && placement[ids[k]] !in ids
    ensures !(DevicesOf(ids, placement) <= (set i | 0 <= i < |ids| :: ids[i]))
  {
    assert placement[ids[k]] in DevicesOf(ids, placement);
  }

  /**
   * `children` lists, once each and as entries of their current fields,
   * exactly the tasks of `dispatched` that have `parentId` among their parents.
   */
  ghost predicate ChildrenIn(children: seq<Entry>, dispatched: set<Task>, parentId: int)
    reads dispatched`cycle, dispatched`parents, dispatched`neededFromParent, dispatched`taskState
  {
    && (forall i, j :: 0 <= i < j < |children| ==> children[i].task != children[j].task)
    && (forall i :: 0 <= i < |children| ==>
          children[i].task in dispatched && parentId in children[i].task.parents && children[i] == EntryOf(children[i].task))
    && (forall t :: t in dispatched && parentId in t.parents ==> exists i :: 0 <= i < |children| && children[i].task == t)
  }

  /**
   * The STAGE_OUT request that asks the device `src` of the completed task
   * `done` to send its output for `cycle` to the device of one dispatched
   * child, found through the child's ledger VM; None where Java unboxes a
   * missing ledger or placement entry.
   */
  function ChildStageOut(c: Entry, done: int, cycle: int, src: int, isData: bool,
                         ledger: map<int, int>, placement: map<int, int>): (r: Option<Event>)
    ensures r.Some? <==> c.id in ledger && ledger[c.id] in placement
    ensures r.Some? ==> r.value == SendNow(src, StageOutData,
      StageOutDataMsg(done, cycle, placement[ledger[c.id]], isData, if done in c.needed then Some(c.needed[done]) else None))
  {
    if c.id in ledger && ledger[c.id] in placement then
      Some(SendNow(src, StageOutData,
        StageOutDataMsg(done, cycle, placement[ledger[c.id]], isData, if done in c.needed then Some(c.needed[done]) else None)))
    else None
  }

  /** The stage-out requests for a list of children, in list order; None if any one fails. */
  function ChildStageOuts(cs: seq<Entry>, done: int, cycle: int, src: int, isData: bool,
                          ledger: map<int, int>, placement: map<int, int>): (r: Option<seq<Event>>)
    ensures r.Some? <==> forall i :: 0 <= i < |cs| ==> cs[i].id in ledger && ledger[cs[i].id] in placement
    ensures r.Some? ==> |r.value| == |cs|
    ensures r.Some? ==> forall i :: 0 <= i < |cs| ==>
      r.value[i] == ChildStageOut(cs[i], done, cycle, src, isData, ledger, placement).value
  {
    if cs == [] then Some([])
    else
      var rest := ChildStageOuts(cs[1..], done, cycle, src, isData, ledger, placement);
      assert forall i :: 1 <= i < |cs| ==> cs[1..][i - 1] == cs[i];
      match ChildStageOut(cs[0], done, cycle, src, isData, ledger, placement)
      case None => None
      case Some(ev) => if rest.None? then None else Some([ev] + rest.value)
  }

  /**
   * What completing `next` leaves alone: its cycle fields, and the status and
   * finished length the failure draw gave `done`.
   */
  ghost function Kept(next: Task, done: Task): ((nat, TaskState, GeneratedData), (CloudletStatus, int))
    reads next`cycle, next`taskState, next`cycleToGeneratedData, done`status, done`finishedSoFar
  {
    (CycleFields(next), (done.status, done.finishedSoFar))
  }

  /** A task's cycle and the per-cycle objects it shares with its other cycles' copies. */
  ghost function CycleFields(t: Task): (nat, TaskState, GeneratedData)
    reads t`cycle, t`taskState, t`cycleToGeneratedData
  {
    (t.cycle, t.taskState, t.cycleToGeneratedData)
  }

  /** A task's selectivity model and the data decisions of its shared memo. */
  ghost function Memo(t: Task): (SelectivityModel, map<int, bool>)
    reads t`selectivityModel, t`cycleToGeneratedData, t.cycleToGeneratedData`decided
  {
    (t.selectivityModel, t.cycleToGeneratedData.decided)
  }

  class FogBroker {
    const selfId: int
    var workflowEngineId: int
    /** The ids of the fog devices the broker asked for characteristics. */
    var fogDeviceIds: seq<int>
    /** The fog devices' names and ids, for VMs pinned to a device by name. */
    const fogDevices: seq<SimpleVmToFogDevice.DeviceRef>
    var characteristics: map<int, Characteristics>
    /** The VM list submitted to the broker (`getVmList`). */
    const vmList: seq<Vm>

    var sentVmCreateRequests: set<int>
    var vmCreateAcks: set<int>
    var sentVmDestroyRequests: set<int>
    var vmDestroyAcks: set<int>
    var failedVms: seq<Vm>
    var createdVms: seq<Vm>
    var toBeCreated: seq<int>
    var vmToFogDevice: map<int, int>

    var tasks: map<int, Task>
    var waitingTaskQueue: seq<Task>
    var dispatchedTasks: set<Task>
    var completedTasks: set<Task>
    /** The task-to-VM ledger. */
    var taskToVm: map<int, int>

    var outbox: seq<Event>

    constructor (selfId: int, vmList: seq<Vm>, fogDevices: seq<SimpleVmToFogDevice.DeviceRef>)
      ensures this.selfId == selfId && this.vmList == vmList && this.fogDevices == fogDevices
      ensures fogDeviceIds == [] && characteristics == map[]
      ensures sentVmCreateRequests == {} && vmCreateAcks == {} && sentVmDestroyRequests == {} && vmDestroyAcks == {}
      ensures failedVms == [] && createdVms == [] && toBeCreated == [] && vmToFogDevice == map[]
      ensures tasks == map[] && waitingTaskQueue == [] && dispatchedTasks == {} && completedTasks == {}
      ensures taskToVm == map[] && outbox == []
      ensures Valid()
    {
      this.selfId := selfId;
      this.vmList := vmList;
      this.fogDevices := fogDevices;
      workflowEngineId := -1;
      fogDeviceIds := [];
      characteristics := map[];
      sentVmCreateRequests, vmCreateAcks, sentVmDestroyRequests, vmDestroyAcks := {}, {}, {}, {};
      failedVms, createdVms, toBeCreated := [], [], [];
      vmToFogDevice := map[];
      tasks := map[];
      waitingTaskQueue := [];
      dispatchedTasks, completedTasks := {}, {};
      taskToVm := map[];
      outbox := [];
    }

    /**
     * Every stored task is stored under its own id, and every created VM is
     * the one the VM list yields for its id.
     */
    ghost predicate Valid()
      reads this`tasks, this`createdVms
    {
      && (forall k :: k in tasks ==> tasks[k].taskId == k)
      && (forall i :: 0 <= i < |createdVms| ==> GetById(vmList, createdVms[i].id) == Some(createdVms[i]))
    }

    /** The broker's task and VM bookkeeping. */
    ghost function Books(): (map<int, Task>, set<Task>, set<Task>, seq<Task>, map<int, int>, map<int, int>, seq<Vm>)
      reads this`tasks, this`completedTasks, this`dispatchedTasks, this`waitingTaskQueue
      reads this`taskToVm, this`vmToFogDevice, this`createdVms
    {
      (tasks, completedTasks, dispatchedTasks, waitingTaskQueue, taskToVm, vmToFogDevice, createdVms)
    }

    /** The stored tasks and the completed set. */
    ghost function Stored(): (map<int, Task>, set<Task>)
      reads this`tasks, this`completedTasks
    {
      (tasks, completedTasks)
    }

    /** What the end of a round leaves alone: the stored and completed tasks, `next`'s cycle fields and memo, and `done`'s outcome. */
    ghost function Carried(next: Task, done: Task)
      : ((map<int, Task>, set<Task>), ((nat, TaskState, GeneratedData), (CloudletStatus, int)), (SelectivityModel, map<int, bool>))
      reads this`tasks, this`completedTasks, next`cycle, next`taskState, next`cycleToGeneratedData
      reads next`selectivityModel, next.cycleToGeneratedData`decided, done`status, done`finishedSoFar
    {
      (Stored(), Kept(next, done), Memo(next))
    }

    method SetWorkflowEngineId(id: int)
      modifies this`workflowEngineId
      ensures workflowEngineId == id
    {
      workflowEngineId := id;
    }

    /**
     * The broker is in the state `dispatchTasks` leaves after scanning the
     * entries `es` in the view `v`, starting from the dispatched set
     * `dispatched0` and the outbox `outbox0`: unless the scan throws, the
     * queue holds the undispatched tasks, and the dispatched tasks' sends were
     * made and their exit timestamps set; every table of the snapshot
     * `tables0` changed by those exit timestamps only.
     */
    ghost predicate ScannedFrom(es: seq<Entry>, v: View, dispatched0: set<Task>, outbox0: seq<Event>,
                                tables0: map<TaskState, map<int, State>>, clock: real, crashed: bool)
      reads this`waitingTaskQueue, this`dispatchedTasks, this`outbox, StatesOf(es)`states, tables0.Keys`states
    {
      var r := Scan(es, v);
      && (crashed <==> r.None?)
      && (!crashed ==>
            && waitingTaskQueue == TasksOf(r.value.kept)
            && dispatchedTasks == dispatched0 + (set e | e in r.value.gone :: e.task)
            && outbox == outbox0 + r.value.sent
            && (ScanPartitions(es, v); Exited(r.value.gone, clock))
            && ExitsStamped(tables0, r.value.gone, clock))
    }

    /** Dispatch may run: every VM create request sent so far has been acknowledged. */
    predicate CreatesAcked()
      reads this`sentVmCreateRequests, this`vmCreateAcks
    {
      sentVmCreateRequests <= vmCreateAcks
    }

    /**
     * `processIncomingTask`: the task gets the broker as its user and an
     * enter-broker timestamp for its cycle, joins the end of the queue and is
     * stored under its id; dispatch runs iff every sent create request is
     * acknowledged. `mapping` is what the task-to-VM mapper returns then,
     * and `tables0` the timestamp tables of the queued tasks and this one.
     */
    method ProcessIncomingTask(task: Task, clock: real, mapping: map<int, int>, ghost tables0: map<TaskState, map<int, State>>)
      returns (crashed: bool)
      requires Valid() && Captured(tables0, QueueStates(waitingTaskQueue + [task]))
      modifies this`tasks, this`taskToVm, this`waitingTaskQueue, this`dispatchedTasks, this`outbox
      modifies task`userId, task`vmId, tasks.Values`vmId, QueueStates(waitingTaskQueue + [task])`states
      ensures Valid()
      ensures tasks == old(tasks)[task.taskId := task] && task.userId == selfId
      ensures !old(CreatesAcked()) ==>
        && !crashed && waitingTaskQueue == old(waitingTaskQueue) + [task] && taskToVm == old(taskToVm)
        && dispatchedTasks == old(dispatchedTasks) && outbox == old(outbox)
        && task.taskState.states == Recorded(old(task.taskState.states), task.cycle, EnterBrokerWaitingQueue, clock)
        && Captured(Stamped(tables0, task.taskState, task.cycle, EnterBrokerWaitingQueue, clock), QueueStates(waitingTaskQueue))
      ensures old(CreatesAcked()) ==>
        && taskToVm == old(taskToVm) + mapping
        && DispatchedFrom(old(EntriesOf(waitingTaskQueue + [task])), old(DecisionsOf(tasks[task.taskId := task])),
                          old(dispatchedTasks), old(outbox),
                          Stamped(tables0, task.taskState, task.cycle, EnterBrokerWaitingQueue, clock), clock, crashed)
      ensures !crashed ==> task.cycle in task.taskState.states && task.taskState.states[task.cycle].enterBrokerWaitingQueue == clock
    {
      if CreatesAcked() {
        crashed := AdmitAndDispatch(task, clock, mapping, tables0);
      } else {
        Admit(task, clock);
        crashed := false;
      }
    }

    /** `processIncomingTask` when every sent create request is acknowledged: admit, then dispatch. */
    method AdmitAndDispatch(task: Task, clock: real, mapping: map<int, int>, ghost tables0: map<TaskState, map<int, State>>)
      returns (crashed: bool)
      requires Valid() && Captured(tables0, QueueStates(waitingTaskQueue + [task]))
      modifies this`tasks, this`taskToVm, this`waitingTaskQueue, this`dispatchedTasks, this`outbox
      modifies task`userId, task`vmId, tasks.Values`vmId, QueueStates(waitingTaskQueue + [task])`states
      ensures Valid()
      ensures tasks == old(tasks)[task.taskId := task] && task.userId == selfId
      ensures taskToVm == old(taskToVm) + mapping
      ensures DispatchedFrom(old(EntriesOf(waitingTaskQueue + [task])), old(DecisionsOf(tasks[task.taskId := task])),
                             old(dispatchedTasks), old(outbox),
                             old(Stamped(tables0, task.taskState, task.cycle, EnterBrokerWaitingQueue, clock)), clock, crashed)
      ensures !crashed ==> task.cycle in task.taskState.states && task.taskState.states[task.cycle].enterBrokerWaitingQueue == clock
    {
      assert task.taskState in QueueStates(waitingTaskQueue + [task]);
      ghost var es0, d0 := EntriesOf(waitingTaskQueue + [task]), DecisionsOf(tasks[task.taskId := task]);
      ghost var tables1 := Stamped(tables0, task.taskState, task.cycle, EnterBrokerWaitingQueue, clock);
      Admit(task, clock);
      assert Captured(tables1, QueueStates(waitingTaskQueue));
      assert EntriesOf(waitingTaskQueue) == es0 && DecisionsOf(tasks) == d0;
      assert dispatchedTasks == old(dispatchedTasks) && outbox == old(outbox);
      crashed := DispatchTasks(mapping, clock, tables1);
      assert DispatchedFrom(es0, d0, old(dispatchedTasks), old(outbox), tables1, clock, crashed);
      if !crashed {
        EnterSurvivesDispatch(es0, d0, old(dispatchedTasks), old(outbox), tables1, clock, task.taskState, task.cycle);
      }
    }

    /** The first half of `processIncomingTask`: the setters, the queue append and the store by id. */
    method Admit(task: Task, clock: real)
      requires Valid()
      modifies this`tasks, this`waitingTaskQueue, task`userId, task.taskState`states
      ensures Valid()
      ensures tasks == old(tasks)[task.taskId := task] && waitingTaskQueue == old(waitingTaskQueue) + [task]
      ensures task.userId == selfId
      ensures task.taskState.states == Recorded(old(task.taskState.states), task.cycle, EnterBrokerWaitingQueue, clock)
      ensures EntriesOf(waitingTaskQueue) == old(EntriesOf(waitingTaskQueue + [task]))
      ensures DecisionsOf(tasks) == old(DecisionsOf(tasks[task.taskId := task]))
      ensures tasks.Values <= old(tasks.Values) + {task}
    {
      ghost var es0 := EntriesOf(waitingTaskQueue + [task]);
      ghost var d0 := DecisionsOf(tasks[task.taskId := task]);
      // The setters touch only the task and its timestamp table, so storing
      // the task before calling them gives the same state as Java's order.
      waitingTaskQueue, tasks := waitingTaskQueue + [task], tasks[task.taskId := task];
      task.SetUserId(selfId);
      assert EntriesOf(waitingTaskQueue) == es0 && DecisionsOf(tasks) == d0;
      task.taskState.SetEnterBrokerWaitingQueue(task.cycle, clock);
      assert EntriesOf(waitingTaskQueue) == es0 && DecisionsOf(tasks) == d0;
    }

    /**
     * `dispatchTasks`: merges the mapper's result into the ledger, sets each
     * ledger task's VM id, then walks the queue and dispatches every task
     * whose VM is a created one. `mapping` is the task-to-VM mapper's result
     * for the current state. It crashes iff a ledger entry names no stored
     * task or the scan throws.
     */
    method DispatchTasks(mapping: map<int, int>, clock: real, ghost tables0: map<TaskState, map<int, State>>)
      returns (crashed: bool)
      requires Valid() && Captured(tables0, QueueStates(waitingTaskQueue))
      modifies this`taskToVm, this`waitingTaskQueue, this`dispatchedTasks, this`outbox
      modifies tasks.Values`vmId, QueueStates(waitingTaskQueue)`states
      ensures Valid() && tasks == old(tasks)
      ensures taskToVm == old(taskToVm) + mapping
      ensures DispatchedFrom(old(EntriesOf(waitingTaskQueue)), old(DecisionsOf(tasks)), old(dispatchedTasks), old(outbox),
                             tables0, clock, crashed)
    {
      var es := EntriesOf(waitingTaskQueue);
      var decisions := DecisionsOf(tasks);
      assert forall e :: e in es ==> e.state in QueueStates(waitingTaskQueue);
      assert StatesOf(es) <= QueueStates(waitingTaskQueue);
      crashed := MergeLedger(mapping);
      if !crashed {
        assert Captured(tables0, StatesOf(es));
        crashed := ScanAndCommit(es, View(taskToVm, CreatedIds(createdVms), vmToFogDevice, decisions), clock, tables0);
      }
    }

    /**
     * The state `dispatchTasks` leaves after the queue entries `es`, with the
     * stored tasks' decisions `decisions`: it crashed iff a ledger entry names
     * no stored task or the scan throws; otherwise every ledger task carries
     * its VM id and the scan's effects are in place.
     */
    ghost predicate DispatchedFrom(es: seq<Entry>, decisions: map<int, map<int, bool>>,
                                   dispatched0: set<Task>, outbox0: seq<Event>, tables0: map<TaskState, map<int, State>>,
                                   clock: real, crashed: bool)
      reads this`taskToVm, this`tasks, this`createdVms, this`vmToFogDevice, tasks.Values`vmId
      reads this`waitingTaskQueue, this`dispatchedTasks, this`outbox, StatesOf(es)`states, tables0.Keys`states
    {
      var v := View(taskToVm, CreatedIds(createdVms), vmToFogDevice, decisions);
      if !(taskToVm.Keys <= tasks.Keys) then crashed
      else
        && (forall k :: k in taskToVm ==> tasks[k].vmId == taskToVm[k])
        && ScannedFrom(es, v, dispatched0, outbox0, tables0, clock, crashed)
    }

    /** A dispatch that does not crash sets exit timestamps only: an enter timestamp in the snapshot is still there. */
    lemma EnterSurvivesDispatch(es: seq<Entry>, decisions: map<int, map<int, bool>>, dispatched0: set<Task>, outbox0: seq<Event>,
                                tables0: map<TaskState, map<int, State>>, clock: real, ts: TaskState, cycle: int)
      requires DispatchedFrom(es, decisions, dispatched0, outbox0, tables0, clock, false)
      requires ts in tables0 && cycle in tables0[ts] && tables0[ts][cycle].enterBrokerWaitingQueue == clock
      ensures cycle in ts.states && ts.states[cycle].enterBrokerWaitingQueue == clock
    {
      var v := View(taskToVm, CreatedIds(createdVms), vmToFogDevice, decisions);
      var gone := Scan(es, v).value.gone;
      assert ts.states == RecordedAll(tables0[ts], CyclesOf(gone, ts), {ExitBrokerWaitingQueue}, clock);
      RecordedAllKeepsOthers(tables0[ts], CyclesOf(gone, ts), {ExitBrokerWaitingQueue}, clock, cycle, EnterBrokerWaitingQueue);
    }

    /** The queue walk and, unless it throws, its commit: the new queue, dispatched set and outbox, then the exit timestamps. */
    method ScanAndCommit(es: seq<Entry>, v: View, clock: real, ghost tables0: map<TaskState, map<int, State>>)
      returns (crashed: bool)
      requires taskToVm.Keys <= tasks.Keys && forall k :: k in taskToVm ==> tasks[k].vmId == taskToVm[k]
      requires Captured(tables0, StatesOf(es))
      modifies this`waitingTaskQueue, this`dispatchedTasks, this`outbox, StatesOf(es)`states
      ensures forall k :: k in taskToVm ==> tasks[k].vmId == taskToVm[k]
      ensures ScannedFrom(es, v, old(dispatchedTasks), old(outbox), tables0, clock, crashed)
    {
      var r := ScanQueue(es, v);
      if r.None? {
        return true;
      }
      var p := r.value;
      ScanPartitions(es, v);
      waitingTaskQueue := TasksOf(p.kept);
      dispatchedTasks := dispatchedTasks + (set e | e in p.gone :: e.task);
      outbox := outbox + p.sent;
      StampExits(p.gone, clock);
      forall ts | ts in tables0
        ensures ts.states == RecordedAll(tables0[ts], CyclesOf(p.gone, ts), {ExitBrokerWaitingQueue}, clock)
      {
        if ts !in StatesOf(p.gone) {
          assert CyclesOf(p.gone, ts) == {};
          RecordedAllOfNothing(tables0[ts], {ExitBrokerWaitingQueue}, clock);
        }
      }
      return false;
    }

    /** The ledger merge (`putAll`) and the `setVmId` loop over its keys, in hash order. */
    method MergeLedger(mapping: map<int, int>) returns (crashed: bool)
      requires Valid()
      modifies this`taskToVm, tasks.Values`vmId
      ensures taskToVm == old(taskToVm) + mapping
      ensures crashed <==> !(taskToVm.Keys <= tasks.Keys)
      ensures !crashed ==> forall k :: k in taskToVm ==> tasks[k].vmId == taskToVm[k]
    {
      var ledger := taskToVm + mapping;
      taskToVm := ledger;
      if !(ledger.Keys <= tasks.Keys) {
        return true;
      }
      var pending := ledger.Keys;
      while pending != {}
        invariant pending <= ledger.Keys && taskToVm == ledger
        invariant forall k :: k in ledger && k !in pending ==> tasks[k].vmId == ledger[k]
        decreases pending
      {
        if forall k :: k !in pending { assert false; }
        var taskId :| taskId in pending;
        pending := pending - {taskId};
        tasks[taskId].SetVmId(ledger[taskId]);
      }
      return false;
    }

    /** `init`: the simulation's resource list is appended to the device ids, and each listed device is asked for its characteristics. */
    method Init(resources: seq<int>)
      modifies this`fogDeviceIds, this`outbox
      ensures fogDeviceIds == old(fogDeviceIds) + resources
      ensures outbox == old(outbox) + ResourceRequests(fogDeviceIds)
    {
      var ids := fogDeviceIds + resources;
      fogDeviceIds := ids;
      var i := 0;
      while i < |ids|
        invariant 0 <= i <= |ids| && fogDeviceIds == ids
        invariant outbox == old(outbox) + ResourceRequests(ids[..i])
      {
        assert ids[..i + 1] == ids[..i] + [ids[i]];
        ResourceRequestsAppendOne(ids[..i], ids[i]);
        outbox := outbox + [SendNow(ids[i], ResourceRequest, NoData)];
        i := i + 1;
      }
      assert ids[..i] == ids;
    }

    /**
     * `processResourceRequestResponse`: the sender's characteristics are
     * stored; once every device has answered, the VM-to-device mapper places
     * the VMs and one VM_CREATE goes to each placed VM's device, in the
     * order `order` of the placement's keys. `deviceOrder` is the order of
     * the characteristics map's keys the mapper walks. It crashes iff the
     * mapper throws.
     */
    method ProcessResourceRequestResponse(source: int, ch: Characteristics, deviceOrder: seq<int>)
      returns (crashed: bool, ghost order: seq<int>)
      requires KeyOrder(deviceOrder, characteristics.Keys + {source})
      modifies this`characteristics, this`vmToFogDevice, this`outbox, this`sentVmCreateRequests
      ensures characteristics == old(characteristics)[source := ch]
      ensures |characteristics| != |fogDeviceIds| ==>
        && !crashed && vmToFogDevice == old(vmToFogDevice) && outbox == old(outbox)
        && sentVmCreateRequests == old(sentVmCreateRequests)
      ensures |characteristics| == |fogDeviceIds| ==>
        var placed := SimpleVmToFogDevice.Fold(vmList, deviceOrder, fogDevices);
        && (crashed <==> placed.None?)
        && (!crashed ==>
              && vmToFogDevice == placed.value && KeyOrder(order, placed.value.Keys)
              && outbox == old(outbox) + Requests(CreateVm, order, placed.value, vmList).value
              && sentVmCreateRequests == old(sentVmCreateRequests) + placed.value.Keys)
    {
      characteristics := characteristics[source := ch];
      crashed, order := false, [];
      if |characteristics| == |fogDeviceIds| {
        var placed := SimpleVmToFogDevice.Map(deviceOrder, vmList, fogDevices);
        if placed.None? {
          return true, [];
        }
        var sent;
        sent, order := InitialCreates(placed.value, vmList);
        vmToFogDevice, outbox := placed.value, outbox + sent;
        sentVmCreateRequests := sentVmCreateRequests + placed.value.Keys;
      }
    }

    /**
     * `processVmCreateAck`: the VM id joins the acks and the VM the created
     * or the failed list; dispatch runs iff every sent create request is now
     * acknowledged, with `mapping` the task-to-VM mapper's result then and
     * `tables0` the timestamp tables of the queued tasks.
     */
    method ProcessVmCreateAck(vmId: int, isCreated: bool, clock: real, mapping: map<int, int>, ghost tables0: map<TaskState, map<int, State>>)
      returns (crashed: bool)
      requires Valid() && GetById(vmList, vmId).Some? && Captured(tables0, QueueStates(waitingTaskQueue))
      modifies this`vmCreateAcks, this`createdVms, this`failedVms
      modifies this`taskToVm, this`waitingTaskQueue, this`dispatchedTasks, this`outbox
      modifies tasks.Values`vmId, QueueStates(waitingTaskQueue)`states
      ensures Valid()
      ensures vmCreateAcks == old(vmCreateAcks) + {vmId}
      ensures isCreated ==> createdVms == old(createdVms) + [GetById(vmList, vmId).value] && failedVms == old(failedVms)
      ensures !isCreated ==> failedVms == old(failedVms) + [GetById(vmList, vmId).value] && createdVms == old(createdVms)
      ensures !(old(sentVmCreateRequests) <= old(vmCreateAcks) + {vmId}) ==>
        && !crashed && waitingTaskQueue == old(waitingTaskQueue) && taskToVm == old(taskToVm)
        && dispatchedTasks == old(dispatchedTasks) && outbox == old(outbox)
        && Captured(tables0, QueueStates(waitingTaskQueue))
      ensures old(sentVmCreateRequests) <= old(vmCreateAcks) + {vmId} ==>
        && taskToVm == old(taskToVm) + mapping
        && DispatchedFrom(old(EntriesOf(waitingTaskQueue)), old(DecisionsOf(tasks)), old(dispatchedTasks), old(outbox),
                          tables0, clock, crashed)
    {
      if sentVmCreateRequests <= vmCreateAcks + {vmId} {
        crashed := AckAndDispatch(vmId, isCreated, clock, mapping, tables0);
      } else {
        RecordCreateAck(vmId, isCreated);
        crashed := false;
      }
    }

    /** `processVmCreateAck` when the ack completes the round: record it, then dispatch. */
    method AckAndDispatch(vmId: int, isCreated: bool, clock: real, mapping: map<int, int>, ghost tables0: map<TaskState, map<int, State>>)
      returns (crashed: bool)
      requires Valid() && GetById(vmList, vmId).Some? && Captured(tables0, QueueStates(waitingTaskQueue))
      modifies this`vmCreateAcks, this`createdVms, this`failedVms
      modifies this`taskToVm, this`waitingTaskQueue, this`dispatchedTasks, this`outbox
      modifies tasks.Values`vmId, QueueStates(waitingTaskQueue)`states
      ensures Valid()
      ensures vmCreateAcks == old(vmCreateAcks) + {vmId}
      ensures isCreated ==> createdVms == old(createdVms) + [GetById(vmList, vmId).value] && failedVms == old(failedVms)
      ensures !isCreated ==> failedVms == old(failedVms) + [GetById(vmList, vmId).value] && createdVms == old(createdVms)
      ensures taskToVm == old(taskToVm) + mapping
      ensures DispatchedFrom(old(EntriesOf(waitingTaskQueue)), old(DecisionsOf(tasks)), old(dispatchedTasks), old(outbox),
                             tables0, clock, crashed)
    {
      RecordCreateAck(vmId, isCreated);
      crashed := DispatchTasks(mapping, clock, tables0);
    }

    /** The bookkeeping half of `processVmCreateAck`. */
    method RecordCreateAck(vmId: int, isCreated: bool)
      requires Valid() && GetById(vmList, vmId).Some?
      modifies this`vmCreateAcks, this`createdVms, this`failedVms
      ensures Valid()
      ensures vmCreateAcks == old(vmCreateAcks) + {vmId}
      ensures isCreated ==> createdVms == old(createdVms) + [GetById(vmList, vmId).value] && failedVms == old(failedVms)
      ensures !isCreated ==> failedVms == old(failedVms) + [GetById(vmList, vmId).value] && createdVms == old(createdVms)
      ensures EntriesOf(waitingTaskQueue) == old(EntriesOf(waitingTaskQueue)) && DecisionsOf(tasks) == old(DecisionsOf(tasks))
    {
      var vm := GetById(vmList, vmId).value;
      GetByIdOfFound(vmList, vmId);
      if isCreated {
        vmCreateAcks, createdVms := vmCreateAcks + {vmId}, createdVms + [vm];
      } else {
        vmCreateAcks, failedVms := vmCreateAcks + {vmId}, failedVms + [vm];
      }
    }

    /**
     * `processVmDestroyAck`: the sender joins the destroy acks; once they
     * cover the sent destroy requests, the create sets are cleared and one
     * VM_CREATE goes out per VM to recreate, each recording its DEVICE id as
     * a sent create request. It crashes iff a VM to recreate has no placement.
     */
    method ProcessVmDestroyAck(source: int) returns (crashed: bool)
      modifies this`vmDestroyAcks, this`sentVmCreateRequests, this`vmCreateAcks, this`outbox
      ensures vmDestroyAcks == old(vmDestroyAcks) + {source}
      ensures !(sentVmDestroyRequests <= vmDestroyAcks) ==>
        && !crashed && sentVmCreateRequests == old(sentVmCreateRequests)
        && vmCreateAcks == old(vmCreateAcks) && outbox == old(outbox)
      ensures sentVmDestroyRequests <= vmDestroyAcks ==>
        var r := Requests(CreateVm, toBeCreated, vmToFogDevice, vmList);
        && (crashed <==> r.None?)
        && (!crashed ==>
              && vmCreateAcks == {} && sentVmCreateRequests == DevicesOf(toBeCreated, vmToFogDevice)
              && outbox == old(outbox) + r.value)
    {
      vmDestroyAcks := vmDestroyAcks + {source};
      crashed := false;
      if sentVmDestroyRequests <= vmDestroyAcks {
        sentVmCreateRequests, vmCreateAcks := {}, {};
        var r := SendRequests(CreateVm, toBeCreated, vmToFogDevice, vmList);
        if r.None? {
          return true;
        }
        outbox, sentVmCreateRequests := outbox + r.value.0, r.value.1;
      }
    }
    /** `next`, the next cycle's copy of a completed task, is stored under its id and recorded completed. */
    ghost predicate StoredFrom(next: Task, tasks0: map<int, Task>, completed0: set<Task>)
      reads this`tasks, this`completedTasks
    {
      tasks == tasks0[next.taskId := next] && completedTasks == completed0 + {next}
    }

    /**
     * The shared memo, whose decisions were `memo0`, holds the data decision
     * `isData` for the cycle just done, made with the selectivity draw `draw`.
     */
    ghost predicate MemoisedFrom(next: Task, draw: real, isData: bool, memo0: map<int, bool>)
      reads next`cycle, next`selectivityModel, next`cycleToGeneratedData, next.cycleToGeneratedData`decided
    {
      (next.cycleToGeneratedData.decided, isData) == Decide(memo0, next.cycle - 1, next.selectivityModel.GenerateData(draw))
    }

    /**
     * `staged` is the result of building the stage-out requests from the
     * device `source` to `children` for the cycle `next` completed.
     */
    ghost predicate StagingOf(next: Task, staged: Option<seq<Event>>, children: seq<Entry>, source: int, isData: bool,
                              ledger: map<int, int>, placement: map<int, int>)
      reads next`cycle
    {
      staged == ChildStageOuts(children, next.taskId, next.cycle - 1, source, isData, ledger, placement)
    }

    /**
     * The stage-out requests `staged` for the children (None if one of them
     * cannot be built): if they cannot be built the handler crashes, and
     * while dispatched tasks are still running they are the only change
     * besides the completion bookkeeping and the enter-broker timestamp on
     * `next`'s table in the snapshot `tables0`.
     */
    ghost predicate StagedFrom(next: Task, staged: Option<seq<Event>>, clock: real, crashed: bool,
                               completed0: set<Task>, dispatched0: set<Task>, queue0: seq<Task>,
                               ledger0: map<int, int>, outbox0: seq<Event>, tables0: map<TaskState, map<int, State>>)
      reads this`outbox, this`taskToVm, this`waitingTaskQueue, this`dispatchedTasks,
              next`cycle, next`taskState, tables0.Keys`states
    {
      && (staged.None? ==> crashed)
      && (staged.Some? && |dispatched0| != |completed0 + {next}| ==>
            && !crashed && outbox == outbox0 + staged.value && taskToVm == ledger0
            && waitingTaskQueue == queue0 && dispatchedTasks == dispatched0
            && Captured(Stamped(tables0, next.taskState, next.cycle, EnterBrokerWaitingQueue, clock), {next.taskState}))
    }

    /**
     * The state a round's end leaves: the provisioner's result is applied,
     * the ledger `ledger0` takes `mapping`, and dispatch runs over the queue
     * entries `es` of the queue `queue0`, with the decisions `decisions` for
     * the stored ids `keys0`, from the dispatched set `dispatched0`, the
     * outbox `outbox0` and the timestamp tables `tables0`.
     */
    ghost predicate RoundEnded(mapping: map<int, int>, clock: real, crashed: bool,
                               es: seq<Entry>, decisions: map<int, map<int, bool>>, keys0: set<int>,
                               dispatched0: set<Task>, queue0: seq<Task>, ledger0: map<int, int>,
                               outbox0: seq<Event>, created0: seq<Vm>, tables0: map<TaskState, map<int, State>>)
      reads this, tasks.Values`vmId, StatesOf(es)`states, tables0.Keys`states
    {
      && toBeCreated == [] && sentVmDestroyRequests == {} && vmDestroyAcks == {}
      && sentVmCreateRequests == {} && vmCreateAcks == {}
      && createdVms == created0 && failedVms == [] && taskToVm == ledger0 + mapping
      && TasksOf(es) == queue0 && decisions.Keys == keys0
      && DispatchedFrom(es, decisions, dispatched0, outbox0, tables0, clock, crashed)
    }

    /**
     * When the stage-out requests `staged` were built and every dispatched
     * task has completed, the round ends, after the stage-out sends.
     */
    ghost predicate RoundEndedFrom(next: Task, staged: Option<seq<Event>>, clock: real, mapping: map<int, int>, crashed: bool,
                                   es: seq<Entry>, decisions: map<int, map<int, bool>>,
                                   tasks0: map<int, Task>, completed0: set<Task>, dispatched0: set<Task>, queue0: seq<Task>,
                                   ledger0: map<int, int>, outbox0: seq<Event>, created0: seq<Vm>, tables0: map<TaskState, map<int, State>>)
      reads this, tasks.Values`vmId, StatesOf(es)`states, tables0.Keys`states, next`taskState, next`cycle
    {
      staged.Some? && |dispatched0| == |completed0 + {next}| ==>
        RoundEnded(mapping, clock, crashed, es, decisions, tasks0.Keys + {next.taskId},
                   dispatched0, queue0, ledger0, outbox0 + staged.value, created0,
                   Stamped(tables0, next.taskState, next.cycle, EnterBrokerWaitingQueue, clock))
    }

    /**
     * `processTaskIsDone`: the task gets its end-of-execution timestamp, the
     * failure generator decides whether it failed, and the workflow engine
     * is told. The next cycle's copy `next` is made; unless the task failed,
     * it is stored and recorded completed with an enter-broker timestamp,
     * the completed cycle's data decision `isData` is made with the
     * selectivity draw `draw`, and the device `source` is asked to stage the
     * output out to every dispatched child, in the order `children` of the
     * dispatched set. If every dispatched task has then completed, a round
     * ends: the provisioner's result is applied and dispatch runs over the
     * queue entries `es` with the decisions `decisions`, and `mapping` the
     * task-to-VM mapper's result. It crashes iff a child has no ledger VM or
     * no placement, or dispatch crashes. `tables0` holds the timestamp tables
     * of the queued tasks and of this one.
     */
    method ProcessTaskIsDone(task: Task, source: int, params: FailureConfig.FailureParameters,
                             clock: real, draw: real, mapping: map<int, int>, children: seq<Entry>,
                             ghost tables0: map<TaskState, map<int, State>>)
      returns (failed: bool, crashed: bool, next: Task, isData: bool,
               ghost staged: Option<seq<Event>>, ghost es: seq<Entry>, ghost decisions: map<int, map<int, bool>>,
               ghost drawn: FailureGeneration.Observed)
      requires Valid() && Captured(tables0, QueueStates(waitingTaskQueue) + {task.taskState})
      requires ChildrenIn(children, dispatchedTasks, task.taskId)
      modifies task`status, task`finishedSoFar, task.taskState`states, task.cycleToGeneratedData`decided
      modifies FailureGeneration.SelectedFrame(params, task.vmId)`cursor
      modifies this`completedTasks, this`tasks, this`outbox, this`toBeCreated
      modifies this`sentVmDestroyRequests, this`vmDestroyAcks, this`sentVmCreateRequests, this`vmCreateAcks
      modifies this`createdVms, this`failedVms, this`taskToVm, this`waitingTaskQueue, this`dispatchedTasks
      modifies tasks.Values`vmId, QueueStates(waitingTaskQueue)`states
      ensures Valid()
      ensures FailureGeneration.GeneratedBetween(old(FailureGeneration.Observe(params, task, task.vmId)), drawn, failed)
      ensures task.status == drawn.status && task.finishedSoFar == drawn.finishedSoFar
      ensures fresh(next) && next.taskId == task.taskId && next.cycle == old(task.cycle) + 1
      ensures next.taskState == old(task.taskState) && next.cycleToGeneratedData == old(task.cycleToGeneratedData)
      ensures failed ==>
        && !crashed && outbox == old(outbox) + [SendNow(old(workflowEngineId), TaskIsDone, TaskIsDoneMsg(task))]
        && Books() == old(Books())
        && task.taskState.states == Recorded(old(task.taskState.states), old(task.cycle), EndExecution, clock)
        && Captured(Stamped(tables0, old(task.taskState), old(task.cycle), EndExecution, clock), {task.taskState})
      ensures !failed ==> next !in old(completedTasks)
      ensures !failed ==> StoredFrom(next, old(tasks), old(completedTasks))
      ensures !failed ==> MemoisedFrom(next, draw, isData, old(task.cycleToGeneratedData.decided))
      ensures !failed ==>
        StagingOf(next, staged, children, source, isData, old(taskToVm), old(vmToFogDevice))
      ensures !failed ==>
        StagedFrom(next, staged, clock, crashed, old(completedTasks), old(dispatchedTasks),
                   old(waitingTaskQueue), old(taskToVm),
                   old(outbox) + [SendNow(old(workflowEngineId), TaskIsDone, TaskIsDoneMsg(task))],
                   Stamped(tables0, old(task.taskState), old(task.cycle), EndExecution, clock))
      ensures !failed ==>
        RoundEndedFrom(next, staged, clock, mapping, crashed, es, decisions,
                       old(tasks), old(completedTasks), old(dispatchedTasks), old(waitingTaskQueue), old(taskToVm),
                       old(outbox) + [SendNow(old(workflowEngineId), TaskIsDone, TaskIsDoneMsg(task))],
                       old(createdVms), Stamped(tables0, old(task.taskState), old(task.cycle), EndExecution, clock))
    {
      ghost var tasks0, completed0, dispatched0, queue0 := tasks, completedTasks, dispatchedTasks, waitingTaskQueue;
      ghost var ledger0, placement0, created0, memo0 := taskToVm, vmToFogDevice, createdVms, task.cycleToGeneratedData.decided;
      failed, next, drawn := Finish(task, params, clock, tables0);
      if failed {
        crashed, isData, staged, es, decisions := false, false, None, [], map[];
        return;
      }
      ghost var tables1 := Stamped(tables0, old(task.taskState), old(task.cycle), EndExecution, clock);
      assert Captured(tables1, QueueStates(waitingTaskQueue) + {next.taskState});
      ghost var outbox0 := old(outbox) + [SendNow(old(workflowEngineId), TaskIsDone, TaskIsDoneMsg(task))];
      crashed, isData, staged, es, decisions := Complete(next, children, source, clock, draw, mapping,
        tasks0, completed0, dispatched0, queue0, ledger0, placement0, outbox0, created0, memo0, tables1,
        task);
    }

    /**
     * The rest of `processTaskIsDone` for a task that did not fail: the
     * completion bookkeeping, the stage-out requests to the children and,
     * if every dispatched task has completed, the end of the round.
     */
    method Complete(next: Task, children: seq<Entry>, source: int, clock: real, draw: real, mapping: map<int, int>,
                    ghost tasks0: map<int, Task>, ghost completed0: set<Task>, ghost dispatched0: set<Task>,
                    ghost queue0: seq<Task>, ghost ledger0: map<int, int>, ghost placement0: map<int, int>,
                    ghost outbox0: seq<Event>, ghost created0: seq<Vm>, ghost memo0: map<int, bool>,
                    ghost tables0: map<TaskState, map<int, State>>, ghost done: Task)
      returns (crashed: bool, isData: bool, ghost staged: Option<seq<Event>>, ghost es: seq<Entry>, ghost decisions: map<int, map<int, bool>>)
      requires Valid() && next.cycle >= 1
      requires Books() == (tasks0, completed0, dispatched0, queue0, ledger0, placement0, created0) && outbox == outbox0
      requires next.cycleToGeneratedData.decided == memo0
      requires Captured(tables0, QueueStates(waitingTaskQueue) + {next.taskState})
      modifies this`completedTasks, this`tasks, this`outbox, this`toBeCreated
      modifies this`sentVmDestroyRequests, this`vmDestroyAcks, this`sentVmCreateRequests, this`vmCreateAcks
      modifies this`createdVms, this`failedVms, this`taskToVm, this`waitingTaskQueue, this`dispatchedTasks
      modifies next.taskState`states, next.cycleToGeneratedData`decided, next`vmId
      modifies tasks.Values`vmId, QueueStates(waitingTaskQueue)`states
      ensures Kept(next, done) == old(Kept(next, done))
      ensures Valid()
      ensures StoredFrom(next, tasks0, completed0)
      ensures MemoisedFrom(next, draw, isData, memo0)
      ensures StagingOf(next, staged, children, source, isData, ledger0, placement0)
      ensures StagedFrom(next, staged, clock, crashed, completed0, dispatched0, queue0, ledger0, outbox0, tables0)
      ensures RoundEndedFrom(next, staged, clock, mapping, crashed, es, decisions,
                             tasks0, completed0, dispatched0, queue0, ledger0, outbox0, created0, tables0)
    {
      isData := RecordCompletion(next, clock, draw, done);
      assert StoredFrom(next, tasks0, completed0) && MemoisedFrom(next, draw, isData, memo0);
      crashed, staged, es, decisions := StageAndClose(next, children, source, clock, isData, mapping,
        tasks0, completed0, dispatched0, queue0, ledger0, placement0, outbox0, created0, tables0, done);
    }

    /**
     * After the completion bookkeeping: the stage-out requests to the
     * children are built, and sent unless one of them cannot be; then, if
     * every dispatched task has completed, the round ends.
     */
    method StageAndClose(next: Task, children: seq<Entry>, source: int, clock: real, isData: bool, mapping: map<int, int>,
                         ghost tasks0: map<int, Task>, ghost completed0: set<Task>, ghost dispatched0: set<Task>,
                         ghost queue0: seq<Task>, ghost ledger0: map<int, int>, ghost placement0: map<int, int>,
                         ghost outbox0: seq<Event>, ghost created0: seq<Vm>, ghost tables0: map<TaskState, map<int, State>>,
                         ghost done: Task)
      returns (crashed: bool, ghost staged: Option<seq<Event>>, ghost es: seq<Entry>, ghost decisions: map<int, map<int, bool>>)
      requires Valid() && next.cycle >= 1
      requires tasks == tasks0[next.taskId := next] && completedTasks == completed0 + {next}
      requires dispatchedTasks == dispatched0 && waitingTaskQueue == queue0 && taskToVm == ledger0
      requires vmToFogDevice == placement0 && outbox == outbox0 && createdVms == created0
      requires Captured(Stamped(tables0, next.taskState, next.cycle, EnterBrokerWaitingQueue, clock),
                        QueueStates(waitingTaskQueue) + {next.taskState})
      modifies this`outbox, this`toBeCreated
      modifies this`sentVmDestroyRequests, this`vmDestroyAcks, this`sentVmCreateRequests, this`vmCreateAcks
      modifies this`createdVms, this`failedVms, this`taskToVm, this`waitingTaskQueue, this`dispatchedTasks
      modifies tasks.Values`vmId, QueueStates(waitingTaskQueue)`states
      ensures Kept(next, done) == old(Kept(next, done))
      ensures Stored() == old(Stored()) && Memo(next) == old(Memo(next))
      ensures Valid()
      ensures StagingOf(next, staged, children, source, isData, ledger0, placement0)
      ensures StagedFrom(next, staged, clock, crashed, completed0, dispatched0, queue0, ledger0, outbox0, tables0)
      ensures RoundEndedFrom(next, staged, clock, mapping, crashed, es, decisions,
                             tasks0, completed0, dispatched0, queue0, ledger0, outbox0, created0, tables0)
    {
      es, decisions := [], map[];
      var sends := ChildStageOuts(children, next.taskId, next.cycle - 1, source, isData, taskToVm, vmToFogDevice);
      staged := sends;
      if sends.None? {
        crashed := true;
        return;
      }
      // The branch that re-executes a task on its next cycle runs only while
      // the cycle is at most the maximum cycle 0, which a next cycle never is.
      if next.cycle <= MaximumCycle {
        assert false;
      }
      assert tasks.Keys == tasks0.Keys + {next.taskId};
      crashed, es, decisions := Close(next, sends.value, mapping, clock, tasks0.Keys + {next.taskId}, completed0 + {next},
        dispatched0, queue0, ledger0, outbox0, created0, Stamped(tables0, next.taskState, next.cycle, EnterBrokerWaitingQueue, clock), done);
    }

    /**
     * The stage-out sends `sent` go out; then, if every dispatched task has
     * completed, the round ends. The ghost parameters name the state on
     * entry.
     */
    method Close(next: Task, sent: seq<Event>, mapping: map<int, int>, clock: real,
                 ghost keys0: set<int>, ghost completed0: set<Task>, ghost dispatched0: set<Task>, ghost queue0: seq<Task>,
                 ghost ledger0: map<int, int>, ghost outbox0: seq<Event>, ghost created0: seq<Vm>, ghost tables0: map<TaskState, map<int, State>>,
                 ghost done: Task)
      returns (crashed: bool, ghost es: seq<Entry>, ghost decisions: map<int, map<int, bool>>)
      requires Valid()
      requires tasks.Keys == keys0 && completedTasks == completed0 && dispatchedTasks == dispatched0
      requires waitingTaskQueue == queue0 && taskToVm == ledger0 && outbox == outbox0 && createdVms == created0
      requires Captured(tables0, QueueStates(waitingTaskQueue) + {next.taskState})
      modifies this`outbox, this`toBeCreated
      modifies this`sentVmDestroyRequests, this`vmDestroyAcks, this`sentVmCreateRequests, this`vmCreateAcks
      modifies this`createdVms, this`failedVms, this`taskToVm, this`waitingTaskQueue, this`dispatchedTasks
      modifies tasks.Values`vmId, QueueStates(waitingTaskQueue)`states
      ensures Carried(next, done) == old(Carried(next, done))
      ensures Valid()
      ensures |dispatched0| != |completed0| ==>
        && !crashed && outbox == outbox0 + sent && taskToVm == ledger0
        && waitingTaskQueue == queue0 && dispatchedTasks == dispatched0 && Captured(tables0, {next.taskState})
      ensures |dispatched0| == |completed0| ==>
        RoundEnded(mapping, clock, crashed, es, decisions, keys0, dispatched0, queue0, ledger0, outbox0 + sent, created0, tables0)
    {
      outbox := outbox + sent;
      crashed, es, decisions := false, [], map[];
      if |dispatchedTasks| == |completedTasks| {
        crashed, es, decisions := EndRound(next, mapping, clock, keys0, dispatched0, queue0, ledger0, outbox0 + sent, created0, tables0, done);
      }
    }

    /** EndOfRound, seen from a completion: the stored tasks, `next` and `done` are left alone. */
    method EndRound(next: Task, mapping: map<int, int>, clock: real, ghost keys0: set<int>, ghost dispatched0: set<Task>,
                    ghost queue0: seq<Task>, ghost ledger0: map<int, int>, ghost outbox0: seq<Event>,
                    ghost created0: seq<Vm>, ghost tables0: map<TaskState, map<int, State>>, ghost done: Task)
      returns (crashed: bool, ghost es: seq<Entry>, ghost decisions: map<int, map<int, bool>>)
      requires Valid() && Captured(tables0, QueueStates(waitingTaskQueue))
      requires tasks.Keys == keys0 && dispatchedTasks == dispatched0 && waitingTaskQueue == queue0
      requires taskToVm == ledger0 && outbox == outbox0 && createdVms == created0
      modifies this`toBeCreated, this`sentVmDestroyRequests, this`vmDestroyAcks, this`sentVmCreateRequests
      modifies this`vmCreateAcks, this`createdVms, this`failedVms, this`outbox
      modifies this`taskToVm, this`waitingTaskQueue, this`dispatchedTasks
      modifies tasks.Values`vmId, QueueStates(waitingTaskQueue)`states
      ensures Carried(next, done) == old(Carried(next, done))
      ensures Valid()
      ensures RoundEnded(mapping, clock, crashed, es, decisions, keys0, dispatched0, queue0, ledger0, outbox0, created0, tables0)
    {
      crashed, es, decisions := EndOfRound(mapping, clock, keys0, dispatched0, queue0, ledger0, outbox0, created0, tables0);
    }

    /** The stream filter over the dispatched set: the dispatched tasks listing `parentId` among their parents. */
    method CollectChildren(parentId: int) returns (children: seq<Entry>)
      ensures ChildrenIn(children, dispatchedTasks, parentId)
    {
      children := [];
      var pending := dispatchedTasks;
      while pending != {}
        invariant pending <= dispatchedTasks
        invariant forall i, j :: 0 <= i < j < |children| ==> children[i].task != children[j].task
        invariant forall i :: 0 <= i < |children| ==>
          && children[i].task in dispatchedTasks && children[i].task !in pending
          && parentId in children[i].task.parents && children[i] == EntryOf(children[i].task)
        invariant forall t :: t in dispatchedTasks && t !in pending && parentId in t.parents ==>
          exists i :: 0 <= i < |children| && children[i].task == t
        decreases pending
      {
        if forall t :: t !in pending { assert false; }
        var child :| child in pending;
        pending := pending - {child};
        if parentId in child.parents {
          ghost var before := children;
          children := children + [EntryOf(child)];
          assert children[|before|].task == child;
          forall t | t in dispatchedTasks && t !in pending + {child} && parentId in t.parents
            ensures exists i :: 0 <= i < |children| && children[i].task == t
          {
            var i :| 0 <= i < |before| && before[i].task == t;
            assert children[i] == before[i];
          }
        }
      }
    }

    /**
     * The first half of `processTaskIsDone`: the end-of-execution timestamp,
     * the failure draw, the engine's notification and the next cycle's copy.
     * `drawn` is what the draw left: the generator's settings and cursor and
     * the task's outcome.
     */
    method Finish(task: Task, params: FailureConfig.FailureParameters, clock: real, ghost tables0: map<TaskState, map<int, State>>)
      returns (failed: bool, next: Task, ghost drawn: FailureGeneration.Observed)
      requires Captured(tables0, {task.taskState})
      modifies task`status, task`finishedSoFar, task.taskState`states, FailureGeneration.SelectedFrame(params, task.vmId)`cursor, this`outbox
      ensures FailureGeneration.GeneratedBetween(old(FailureGeneration.Observe(params, task, task.vmId)), drawn, failed)
      ensures task.status == drawn.status && task.finishedSoFar == drawn.finishedSoFar
      ensures Books() == old(Books())
      ensures task.taskState.states == Recorded(old(task.taskState.states), old(task.cycle), EndExecution, clock)
      ensures outbox == old(outbox) + [SendNow(old(workflowEngineId), TaskIsDone, TaskIsDoneMsg(task))]
      ensures fresh(next) && next.taskId == task.taskId && next.cycle == old(task.cycle) + 1
      ensures next.taskState == old(task.taskState) && next.cycleToGeneratedData == old(task.cycleToGeneratedData)
      ensures next.selectivityModel == old(task.selectivityModel)
      ensures Captured(Stamped(tables0, old(task.taskState), old(task.cycle), EndExecution, clock), {task.taskState})
      ensures QueueStates(waitingTaskQueue) == old(QueueStates(waitingTaskQueue))
    {
      failed := EndAndDraw(task, params, clock, tables0);
      drawn := FailureGeneration.Observe(params, task, task.vmId);
      next := Announce(task, Stamped(tables0, old(task.taskState), old(task.cycle), EndExecution, clock));
    }

    /**
     * `getNextCycle` as the completion uses it; the timestamp tables `tables`
     * and the tables of the queued tasks `queue` are left alone.
     */
    static method NextCycleOf(task: Task, ghost tables: map<TaskState, map<int, State>>, ghost queue: seq<Task>) returns (next: Task)
      requires Captured(tables, {task.taskState})
      ensures Captured(tables, {task.taskState}) && QueueStates(queue) == old(QueueStates(queue))
      ensures fresh(next) && next.taskId == task.taskId && next.cycle == task.cycle + 1
      ensures next.taskState == task.taskState && next.cycleToGeneratedData == task.cycleToGeneratedData
      ensures next.selectivityModel == task.selectivityModel
    {
      next := task.GetNextCycle();
    }

    /** The TASK_IS_DONE message to the workflow engine, then the next cycle's copy. */
    method Announce(task: Task, ghost tables: map<TaskState, map<int, State>>) returns (next: Task)
      requires Captured(tables, {task.taskState})
      modifies this`outbox
      ensures outbox == old(outbox) + [SendNow(workflowEngineId, TaskIsDone, TaskIsDoneMsg(task))]
      ensures Books() == old(Books()) && QueueStates(waitingTaskQueue) == old(QueueStates(waitingTaskQueue))
      ensures Captured(tables, {task.taskState}) && task.taskState.states == old(task.taskState.states)
      ensures task.status == old(task.status) && task.finishedSoFar == old(task.finishedSoFar)
      ensures fresh(next) && next.taskId == task.taskId && next.cycle == task.cycle + 1
      ensures next.taskState == task.taskState && next.cycleToGeneratedData == task.cycleToGeneratedData
      ensures next.selectivityModel == task.selectivityModel
    {
      outbox := outbox + [SendNow(workflowEngineId, TaskIsDone, TaskIsDoneMsg(task))];
      next := NextCycleOf(task, tables, waitingTaskQueue);
    }

    /** The end-of-execution stamp and the failure draw for `task`. */
    method EndAndDraw(task: Task, params: FailureConfig.FailureParameters, clock: real, ghost tables0: map<TaskState, map<int, State>>)
      returns (failed: bool)
      requires Captured(tables0, {task.taskState})
      modifies task`status, task`finishedSoFar, task.taskState`states, FailureGeneration.SelectedFrame(params, task.vmId)`cursor
      ensures FailureGeneration.Generated(params, task, old(task.vmId), failed)
      ensures Books() == old(Books()) && outbox == old(outbox) && workflowEngineId == old(workflowEngineId)
      ensures task.taskState.states == Recorded(old(task.taskState.states), old(task.cycle), EndExecution, clock)
      ensures task.taskState == old(task.taskState) && task.cycle == old(task.cycle)
      ensures task.cycleToGeneratedData == old(task.cycleToGeneratedData) && task.selectivityModel == old(task.selectivityModel)
      ensures Captured(Stamped(tables0, old(task.taskState), old(task.cycle), EndExecution, clock), {task.taskState})
      ensures QueueStates(waitingTaskQueue) == old(QueueStates(waitingTaskQueue))
    {
      ghost var before := FailureGeneration.Observe(params, task, task.vmId);
      task.taskState.SetEndExecutionTime(task.cycle, clock);
      assert FailureGeneration.Observe(params, task, task.vmId) == before;
      failed := FailureGeneration.Generate(params, task);
    }

    /** The completion bookkeeping for the next cycle's copy: store, enter timestamp, data decision for the cycle just done. */
    method RecordCompletion(next: Task, clock: real, draw: real, ghost done: Task) returns (isData: bool)
      requires Valid()
      modifies this`completedTasks, this`tasks, next.taskState`states, next.cycleToGeneratedData`decided
      ensures Kept(next, done) == old(Kept(next, done))
      ensures Valid()
      ensures completedTasks == old(completedTasks) + {next} && tasks == old(tasks)[next.taskId := next]
      ensures next.taskState.states == Recorded(old(next.taskState.states), next.cycle, EnterBrokerWaitingQueue, clock)
      ensures (next.cycleToGeneratedData.decided, isData)
           == Decide(old(next.cycleToGeneratedData.decided), next.cycle - 1, next.selectivityModel.GenerateData(draw))
    {
      completedTasks, tasks := completedTasks + {next}, tasks[next.taskId := next];
      next.taskState.SetEnterBrokerWaitingQueue(next.cycle, clock);
      isData := next.WantToGenerateData(next.cycle - 1, draw);
    }

    /**
     * The end of a round: the provisioner's triple is applied (nothing to
     * create or destroy, every created VM kept), then dispatch runs over the
     * queue entries `es` with the decisions `decisions` it then finds. The
     * ghost parameters name the state on entry.
     */
    method EndOfRound(mapping: map<int, int>, clock: real, ghost keys0: set<int>, ghost dispatched0: set<Task>,
                      ghost queue0: seq<Task>, ghost ledger0: map<int, int>, ghost outbox0: seq<Event>,
                      ghost created0: seq<Vm>, ghost tables0: map<TaskState, map<int, State>>)
      returns (crashed: bool, ghost es: seq<Entry>, ghost decisions: map<int, map<int, bool>>)
      requires Valid() && Captured(tables0, QueueStates(waitingTaskQueue))
      requires tasks.Keys == keys0 && dispatchedTasks == dispatched0 && waitingTaskQueue == queue0
      requires taskToVm == ledger0 && outbox == outbox0 && createdVms == created0
      modifies this`toBeCreated, this`sentVmDestroyRequests, this`vmDestroyAcks, this`sentVmCreateRequests
      modifies this`vmCreateAcks, this`createdVms, this`failedVms, this`outbox
      modifies this`taskToVm, this`waitingTaskQueue, this`dispatchedTasks
      modifies tasks.Values`vmId, QueueStates(waitingTaskQueue)`states
      ensures Valid()
      ensures RoundEnded(mapping, clock, crashed, es, decisions, keys0, dispatched0, queue0, ledger0, outbox0, created0, tables0)
    {
      Provision();
      es, decisions := EntriesOf(waitingTaskQueue), DecisionsOf(tasks);
      assert TasksOf(es) == waitingTaskQueue;
      ghost var provisioned := (toBeCreated, sentVmDestroyRequests, vmDestroyAcks, sentVmCreateRequests, vmCreateAcks, createdVms, failedVms);
      assert provisioned == ([], {}, {}, {}, {}, created0, []);
      crashed := DispatchTasks(mapping, clock, tables0);
      assert provisioned == (toBeCreated, sentVmDestroyRequests, vmDestroyAcks, sentVmCreateRequests, vmCreateAcks, createdVms, failedVms);
    }

    /**
     * The provisioning half of a round's end: the destroy loop and, with no
     * destroy sent, the create loop run over the triple's (empty) lists, and
     * the created list becomes the kept-alive VMs.
     */
    method Provision()
      requires Valid()
      modifies this`toBeCreated, this`sentVmDestroyRequests, this`vmDestroyAcks, this`sentVmCreateRequests
      modifies this`vmCreateAcks, this`createdVms, this`failedVms, this`outbox
      ensures Valid()
      ensures toBeCreated == [] && sentVmDestroyRequests == {} && vmDestroyAcks == {}
      ensures sentVmCreateRequests == {} && vmCreateAcks == {}
      ensures createdVms == old(createdVms) && failedVms == [] && outbox == old(outbox)
    {
      var triple := SimpleProvisioner.Provide(failedVms, createdVms, vmList, taskToVm, completedTasks, dispatchedTasks, waitingTaskQueue);
      var sent, destroyed, created, createAcks := RoundRequests(triple, vmToFogDevice, vmList, sentVmCreateRequests, vmCreateAcks);
      KeptVmsAreCreated(vmList, createdVms);
      toBeCreated, sentVmDestroyRequests, vmDestroyAcks, sentVmCreateRequests, vmCreateAcks, createdVms, failedVms, outbox :=
        triple.toCreate, destroyed, {}, created, createAcks, KeptVms(vmList, triple.keepAlive), [], outbox + sent;
    }

    /**
     * The destroy loop over the triple's destroy list and, when it sent
     * nothing, the create loop over its create list, as values: the sends,
     * the destroy devices, and the create requests and acks afterwards.
     */
    static method RoundRequests(triple: SimpleProvisioner.Provision, placement: map<int, int>, vmList: seq<Vm>,
                                sentCreates: set<int>, createAcks: set<int>)
      returns (sent: seq<Event>, destroyed: set<int>, created: set<int>, acks: set<int>)
      requires triple.toCreate == [] && triple.toDestroy == []
      ensures sent == [] && destroyed == {} && created == {} && acks == {}
    {
      NoRequests(DestroyVm, placement, vmList);
      NoRequests(CreateVm, placement, vmList);
      var destroys := SendRequests(DestroyVm, triple.toDestroy, placement, vmList);
      sent, destroyed := destroys.value.0, destroys.value.1;
      created, acks := sentCreates, createAcks;
      if destroyed == {} {
        var creates := SendRequests(CreateVm, triple.toCreate, placement, vmList);
        sent, created, acks := sent + creates.value.0, creates.value.1, {};
      }
    }
  }
}
