/**
 * The per-device agent (widesim/entity/FogDevice.java).
 *
 * A fog device owns one uplink and one downlink. Each link serves one
 * transfer at a time: a transfer offered while the link is busy waits in the
 * link's FIFO, and the link schedules its own "link is free" notice after the
 * delay of the transfer in service. The device also gates task execution on
 * the data it has received for the task's cycle.
 */
module FogDevices {
  import opened Wrappers
  import opened TaskStates
  import opened Tasks
  import opened Messages

  /** A transfer waiting for a link. */
  datatype NetworkRequest = NetworkRequest(dstEntityId: int, delay: real, tag: Tag, msg: Payload)

  /** Tags carried over a link: everything except the links' own release notices. */
  predicate Transfer(tag: Tag)
  {
    tag != UpLinkIsFree && tag != DownLinkIsFree
  }

  /** The two sends that start serving a request: the request, then the link's release after the same delay. */
  function Serve(req: NetworkRequest, selfId: int, free: Tag): seq<Event>
  {
    [Event(req.dstEntityId, req.delay, req.tag, req.msg), Event(selfId, req.delay, free, NoData)]
  }

  /** Each side of `Serve` adds exactly one release notice of its own link and none of the other. */
  lemma ServeCounts(events: seq<Event>, req: NetworkRequest, selfId: int, free: Tag, tag: Tag)
    requires Transfer(req.tag) && !Transfer(free) && !Transfer(tag) && tag != free
    ensures CountTag(events + Serve(req, selfId, free), free) == CountTag(events, free) + 1
    ensures CountTag(events + Serve(req, selfId, free), tag) == CountTag(events, tag)
  {
    var es := Serve(req, selfId, free);
    CountTagAppend(events, es, free);
    CountTagAppend(events, es, tag);
    assert es[1..][1..] == [];
    assert CountTag(es[1..], free) == 1 && CountTag(es[1..], tag) == 0;
  }

  /** Sending events that are not release notices leaves the count of release notices unchanged. */
  lemma SendCounts(events: seq<Event>, e: Event, tag: Tag)
    requires e.tag != tag
    ensures CountTag(events + [e], tag) == CountTag(events, tag)
  {
    CountTagAppend(events, [e], tag);
    assert [e][1..] == [];
  }

  // ---------------------------------------------------------------------
  // Gating a task on its parents' data

  /** What the device does with a task for which some data has arrived. */
  datatype Gate =
    | Execute      // every parent delivered data: execute
    | SendBack     // some parent reported that it generated no data: send the task back
    | KeepWaiting  // keep waiting

  /** `containsAll(parents × {true})`. */
  predicate AllDataReceived(parents: set<int>, received: set<(int, bool)>)
  {
    forall p :: p in parents ==> (p, true) in received
  }

  /** `anyMatch(pair -> parents.contains(pair.first) && !pair.second)`: some parent sent a `(parent, false)` pair. */
  predicate SomeParentSkipped(parents: set<int>, received: set<(int, bool)>)
  {
    exists q :: q in parents && (q, false) in received
  }

  function GateOf(parents: set<int>, received: set<(int, bool)>): Gate
  {
    if AllDataReceived(parents, received) then Execute
    else if SomeParentSkipped(parents, received) then SendBack
    else KeepWaiting
  }

  /** Execute exactly when every parent delivered data; otherwise send back exactly when some parent reported none. */
  lemma GateOfCases(parents: set<int>, received: set<(int, bool)>)
    ensures GateOf(parents, received) == Execute <==> (forall p :: p in parents ==> (p, true) in received)
    ensures GateOf(parents, received) == SendBack <==>
      ((exists p :: p in parents && (p, true) !in received) && exists q :: q in parents && (q, false) in received)
    ensures GateOf(parents, received) == KeepWaiting <==>
      ((exists p :: p in parents && (p, true) !in received) && forall q :: q in parents ==> (q, false) !in received)
  {
  }

  /** A root task never waits. */
  lemma RootTaskIsReady(received: set<(int, bool)>)
    ensures GateOf({}, received) == Execute
  {
  }

  /** Once every parent has reported, with data or without, the task stops waiting. */
  lemma CompleteReportsRelease(parents: set<int>, received: set<(int, bool)>)
    requires forall p :: p in parents ==> (p, true) in received || (p, false) in received
    ensures GateOf(parents, received) != KeepWaiting
  {
    if !AllDataReceived(parents, received) {
      var p :| p in parents && (p, true) !in received;
      assert (p, false) in received;
    }
  }

  /** More arrivals never send a released task back to waiting. */
  lemma ReleaseIsMonotone(parents: set<int>, r1: set<(int, bool)>, r2: set<(int, bool)>)
    requires r1 <= r2 && GateOf(parents, r1) != KeepWaiting
    ensures GateOf(parents, r2) != KeepWaiting
  {
    if !AllDataReceived(parents, r1) {
      var q :| q in parents && (q, false) in r1;
      assert (q, false) in r2;
    }
  }

  /** `waitingTasks.removeIf(id -> id == x)`. */
  function Without(s: seq<int>, x: int): (r: seq<int>)
    ensures multiset(r) == multiset(s)[x := 0]
    ensures x !in r
  {
    if s == [] then []
    else
      var n := |s| - 1;
      assert s == s[..n] + [s[n]];
      Without(s[..n], x) + (if s[n] == x then [] else [s[n]])
  }

  /** The file sizes of the named files, summed: `stream().mapToLong(task::getFileSize).sum()`. */
  function SumFileSizes(fileMap: map<string, int>, names: seq<string>): (r: int)
    requires forall i :: 0 <= i < |names| ==> names[i] in fileMap
    ensures (forall i :: 0 <= i < |names| ==> fileMap[names[i]] >= 0) ==> r >= 0
  {
    if names == [] then 0
    else SumFileSizes(fileMap, names[..|names| - 1]) + fileMap[names[|names| - 1]]
  }

  lemma {:induction false} SumFileSizesAppend(fileMap: map<string, int>, a: seq<string>, b: seq<string>)
    requires forall i :: 0 <= i < |a| ==> a[i] in fileMap
    requires forall i :: 0 <= i < |b| ==> b[i] in fileMap
    ensures forall i :: 0 <= i < |a + b| ==> (a + b)[i] in fileMap
    ensures SumFileSizes(fileMap, a + b) == SumFileSizes(fileMap, a) + SumFileSizes(fileMap, b)
    decreases |b|
  {
    if b == [] {
      assert a + b == a;
    } else {
      var b' := b[..|b| - 1];
      assert (a + b)[..|a + b| - 1] == a + b';
      SumFileSizesAppend(fileMap, a, b');
    }
  }

  // ---------------------------------------------------------------------
  // The release scan over the waiting list, as a specification

  /** What the release pass reads of one waiting task. */
  datatype Entry = Entry(
    task: Task, parents: set<int>, cycle: int, vmId: int, userId: int,
    memo: GeneratedData, stamps: TaskState)

  function EntryOf(t: Task): (e: Entry)
    reads t`parents, t`cycle, t`vmId, t`userId, t`cycleToGeneratedData, t`taskState
    ensures e.task == t && e.cycle == t.cycle && e.memo == t.cycleToGeneratedData && e.stamps == t.taskState
  {
    Entry(t, t.parents, t.cycle, t.vmId, t.userId, t.cycleToGeneratedData, t.taskState)
  }

  /** The waiting tasks as the release pass sees them. */
  function Snapshot(w: seq<int>, tasks: map<int, Task>): (r: seq<Entry>)
    requires forall i :: 0 <= i < |w| ==> w[i] in tasks
    reads tasks.Values`parents, tasks.Values`cycle, tasks.Values`vmId, tasks.Values`userId
    reads tasks.Values`cycleToGeneratedData, tasks.Values`taskState
    ensures |r| == |w|
    ensures forall i :: 0 <= i < |w| ==> r[i] == EntryOf(tasks[w[i]])
  {
    if w == [] then []
    else
      var n := |w| - 1;
      assert forall i :: 0 <= i < n ==> w[..n][i] == w[i];
      Snapshot(w[..n], tasks) + [EntryOf(tasks[w[n]])]
  }

  /** Every entry's cycle has a received-data set. */
  predicate Tracked(es: seq<Entry>, rec: map<int, set<(int, bool)>>)
  {
    forall i :: 0 <= i < |es| ==> es[i].cycle in rec
  }

  function GateAt(e: Entry, rec: map<int, set<(int, bool)>>): Gate
    requires e.cycle in rec
  {
    GateOf(e.parents, rec[e.cycle])
  }

  /** The send of a released task: EXECUTE_TASK to this device, or CLOUDLET_RETURN to its owner. */
  function ReleaseEvent(e: Entry, g: Gate, selfId: int): (ev: Event)
    ensures ev.delay == 0.0 && Transfer(ev.tag)
    ensures g == Execute ==> ev.target == selfId && ev.tag == ExecuteTask
    ensures g != Execute ==> ev.target == e.userId && ev.tag == CloudletReturn
  {
    if g == Execute then SendNow(selfId, ExecuteTask, ExecuteTaskMsg(e.task, e.vmId))
    else SendNow(e.userId, CloudletReturn, TaskData(e.task))
  }

  /** The timestamps an arriving task gets: enter-queue only when it waits, enter, start and exit when released. */
  function ArrivalStamps(g: Gate): (fs: set<Stamp>)
    ensures EnterFogDeviceWaitingQueue in fs
    ensures (StartExecution in fs) == (ExitFogDeviceWaitingQueue in fs) == (g != KeepWaiting)
  {
    if g == KeepWaiting then {EnterFogDeviceWaitingQueue}
    else {EnterFogDeviceWaitingQueue, StartExecution, ExitFogDeviceWaitingQueue}
  }

  /** The send of an arriving task released at once: CLOUDLET_SUBMIT_ACK to this device, or CLOUDLET_RETURN to its owner. */
  function ArrivalEvent(t: Task, g: Gate, selfId: int): (ev: Event)
    reads t`userId
    ensures ev.delay == 0.0 && Transfer(ev.tag) && ev.payload == TaskData(t)
    ensures g == Execute ==> ev.target == selfId && ev.tag == CloudletSubmitAck
    ensures g != Execute ==> ev.target == t.userId && ev.tag == CloudletReturn
  {
    if g == Execute then SendNow(selfId, CloudletSubmitAck, TaskData(t))
    else SendNow(t.userId, CloudletReturn, TaskData(t))
  }

  /** The setter calls on an arriving task's timestamps make up one batch write of `ArrivalStamps(g)`. */
  lemma ArrivalStampsBatch(s0: map<int, State>, cycle: int, clock: real, g: Gate)
    ensures var s1 := Recorded(s0, cycle, EnterFogDeviceWaitingQueue, clock);
      (if g != KeepWaiting
       then Recorded(Recorded(s1, cycle, StartExecution, clock), cycle, ExitFogDeviceWaitingQueue, clock)
       else Recorded(s1, cycle, EnterFogDeviceWaitingQueue, clock))
      == RecordedAll(s0, {cycle}, ArrivalStamps(g), clock)
  {
    var fs := {EnterFogDeviceWaitingQueue};
    RecordedIsBatchOfOne(s0, cycle, EnterFogDeviceWaitingQueue, clock);
    if g != KeepWaiting {
      RecordedAllAddStamp(s0, cycle, fs, StartExecution, clock);
      RecordedAllAddStamp(s0, cycle, fs + {StartExecution}, ExitFogDeviceWaitingQueue, clock);
      assert fs + {StartExecution} + {ExitFogDeviceWaitingQueue} == ArrivalStamps(g);
    } else {
      RecordedAllExtendOne(s0, {cycle}, EnterFogDeviceWaitingQueue, clock, cycle);
      assert {cycle} + {cycle} == {cycle};
    }
  }

  /** Removing an id keeps only ids that were there. */
  lemma WithoutKeepsKnown(s: seq<int>, x: int)
    ensures forall i :: 0 <= i < |Without(s, x)| ==> Without(s, x)[i] in s
  {
    var r := Without(s, x);
    forall i | 0 <= i < |r| ensures r[i] in s {
      assert r[i] in multiset(r);
    }
  }

  /**
   * One pass of the waiting-list iterator: the entries that stay waiting, in
   * order, and the sends of the released ones, in order.
   */
  function Scan(es: seq<Entry>, rec: map<int, set<(int, bool)>>, selfId: int): (r: (seq<Entry>, seq<Event>))
    requires Tracked(es, rec)
    decreases |es|
  {
    if es == [] then ([], [])
    else
      var n := |es| - 1;
      assert forall i :: 0 <= i < n ==> es[..n][i] == es[i];
      var prev := Scan(es[..n], rec, selfId);
      var g := GateAt(es[n], rec);
      if g == KeepWaiting then (prev.0 + [es[n]], prev.1)
      else (prev.0, prev.1 + [ReleaseEvent(es[n], g, selfId)])
  }

  /**
   * The pass keeps exactly the entries that must wait, and only entries of
   * the list; every entry is either kept or sent, and only EXECUTE_TASK and
   * CLOUDLET_RETURN are sent.
   */
  lemma {:induction false} ScanSplits(es: seq<Entry>, rec: map<int, set<(int, bool)>>, selfId: int)
    requires Tracked(es, rec)
    ensures var r := Scan(es, rec, selfId);
      && (forall i :: 0 <= i < |es| ==> (es[i] in r.0 <==> GateAt(es[i], rec) == KeepWaiting))
      && (forall e :: e in r.0 ==> e in es)
      && |r.0| + |r.1| == |es|
      && (forall j :: 0 <= j < |r.1| ==> r.1[j].tag == ExecuteTask || r.1[j].tag == CloudletReturn)
    decreases |es|
  {
    if es != [] {
      var n := |es| - 1;
      assert forall i :: 0 <= i < n ==> es[..n][i] == es[i];
      ScanSplits(es[..n], rec, selfId);
      var prev := Scan(es[..n], rec, selfId);
      var r := Scan(es, rec, selfId);
      forall i | 0 <= i < |es| ensures es[i] in r.0 <==> GateAt(es[i], rec) == KeepWaiting {
        if i < n {
          assert es[i] == es[..n][i];
        }
      }
    }
  }

  /** The ids of a sequence of entries. */
  function Ids(es: seq<Entry>): (r: seq<int>)
    ensures |r| == |es| && forall i :: 0 <= i < |es| ==> r[i] == es[i].task.taskId
  {
    seq(|es|, i requires 0 <= i < |es| => es[i].task.taskId)
  }

  /** The cycles of one timestamp table whose waiting task the pass releases. */
  function ReleasedCycles(es: seq<Entry>, rec: map<int, set<(int, bool)>>, ts: TaskState): set<int>
    requires Tracked(es, rec)
  {
    set i | 0 <= i < |es| && es[i].stamps == ts && GateAt(es[i], rec) != KeepWaiting :: es[i].cycle
  }

  /** The cycles of one memo whose waiting task the pass sends back for lack of data. */
  function DroppedCycles(es: seq<Entry>, rec: map<int, set<(int, bool)>>, m: GeneratedData): set<int>
    requires Tracked(es, rec)
  {
    set i | 0 <= i < |es| && es[i].memo == m && GateAt(es[i], rec) == SendBack :: es[i].cycle
  }

  /** The memo after `put(c, false)` for every cycle in `cs`. */
  function MarkedFalse(d: map<int, bool>, cs: set<int>): (r: map<int, bool>)
    ensures r.Keys == d.Keys + cs
  {
    map c | c in d.Keys + cs :: if c in cs then false else d[c]
  }

  /** Every cycle of `cs` is memoised as having no data; every other entry keeps its value. */
  lemma MarkedFalseCases(d: map<int, bool>, cs: set<int>)
    ensures forall c :: c in cs ==> !MarkedFalse(d, cs)[c]
    ensures forall c :: c in d && c !in cs ==> MarkedFalse(d, cs)[c] == d[c]
  {
  }

  lemma MarkedFalseExtend(d: map<int, bool>, cs: set<int>, c: int)
    ensures MarkedFalse(d, cs)[c := false] == MarkedFalse(d, cs + {c})
  {
  }

  lemma ReleasedCyclesStep(es: seq<Entry>, rec: map<int, set<(int, bool)>>, ts: TaskState, i: int)
    requires Tracked(es, rec) && 0 <= i < |es|
    ensures Tracked(es[..i], rec) && Tracked(es[..i + 1], rec)
    ensures ReleasedCycles(es[..i + 1], rec, ts)
         == ReleasedCycles(es[..i], rec, ts)
          + (if es[i].stamps == ts && GateAt(es[i], rec) != KeepWaiting then {es[i].cycle} else {})
  {
    assert forall j :: 0 <= j < i ==> es[..i][j] == es[..i + 1][j] == es[j];
    assert es[..i + 1][i] == es[i];
  }

  lemma DroppedCyclesStep(es: seq<Entry>, rec: map<int, set<(int, bool)>>, m: GeneratedData, i: int)
    requires Tracked(es, rec) && 0 <= i < |es|
    ensures Tracked(es[..i], rec) && Tracked(es[..i + 1], rec)
    ensures DroppedCycles(es[..i + 1], rec, m)
         == DroppedCycles(es[..i], rec, m)
          + (if es[i].memo == m && GateAt(es[i], rec) == SendBack then {es[i].cycle} else {})
  {
    assert forall j :: 0 <= j < i ==> es[..i][j] == es[..i + 1][j] == es[j];
    assert es[..i + 1][i] == es[i];
  }

  lemma ScanStep(es: seq<Entry>, rec: map<int, set<(int, bool)>>, selfId: int, i: int)
    requires Tracked(es, rec) && 0 <= i < |es|
    ensures Tracked(es[..i], rec) && Tracked(es[..i + 1], rec)
    ensures var prev := Scan(es[..i], rec, selfId);
            var g := GateAt(es[i], rec);
            Scan(es[..i + 1], rec, selfId)
              == if g == KeepWaiting then (prev.0 + [es[i]], prev.1)
                 else (prev.0, prev.1 + [ReleaseEvent(es[i], g, selfId)])
  {
    assert es[..i + 1][..i] == es[..i];
  }
  /**
   * The memo tables after the pass over `es`, one entry at a time: an entry
   * sent back has `false` memoised for its cycle in its own memo.
   */
  function DropAll(m0: map<GeneratedData, map<int, bool>>, es: seq<Entry>, rec: map<int, set<(int, bool)>>)
    : (r: map<GeneratedData, map<int, bool>>)
    requires Tracked(es, rec)
    ensures r.Keys == m0.Keys
    decreases |es|
  {
    if es == [] then m0
    else
      var n := |es| - 1;
      assert forall i :: 0 <= i < n ==> es[..n][i] == es[i];
      var prev := DropAll(m0, es[..n], rec);
      var e := es[n];
      if GateAt(e, rec) == SendBack && e.memo in prev then prev[e.memo := prev[e.memo][e.cycle := false]]
      else prev
  }

  /**
   * The timestamp tables after the pass over `es`, one entry at a time: a
   * released entry has its start and exit times set in its own table.
   */
  function StampAll(s0: map<TaskState, map<int, State>>, es: seq<Entry>, rec: map<int, set<(int, bool)>>, time: real)
    : (r: map<TaskState, map<int, State>>)
    requires Tracked(es, rec)
    ensures r.Keys == s0.Keys
    decreases |es|
  {
    if es == [] then s0
    else
      var n := |es| - 1;
      assert forall i :: 0 <= i < n ==> es[..n][i] == es[i];
      var prev := StampAll(s0, es[..n], rec, time);
      var e := es[n];
      if GateAt(e, rec) != KeepWaiting && e.stamps in prev
      then prev[e.stamps := Recorded(Recorded(prev[e.stamps], e.cycle, StartExecution, time),
                                     e.cycle, ExitFogDeviceWaitingQueue, time)]
      else prev
  }

  lemma DropAllStep(m0: map<GeneratedData, map<int, bool>>, es: seq<Entry>, rec: map<int, set<(int, bool)>>, i: int)
    requires Tracked(es, rec) && 0 <= i < |es|
    ensures Tracked(es[..i], rec) && Tracked(es[..i + 1], rec)
    ensures var prev := DropAll(m0, es[..i], rec);
            DropAll(m0, es[..i + 1], rec)
              == if GateAt(es[i], rec) == SendBack && es[i].memo in prev then prev[es[i].memo := prev[es[i].memo][es[i].cycle := false]]
                 else prev
  {
    assert es[..i + 1][..i] == es[..i];
  }

  lemma StampAllStep(s0: map<TaskState, map<int, State>>, es: seq<Entry>, rec: map<int, set<(int, bool)>>, time: real, i: int)
    requires Tracked(es, rec) && 0 <= i < |es|
    ensures Tracked(es[..i], rec) && Tracked(es[..i + 1], rec)
    ensures var prev := StampAll(s0, es[..i], rec, time);
            StampAll(s0, es[..i + 1], rec, time)
              == if GateAt(es[i], rec) != KeepWaiting && es[i].stamps in prev
                 then prev[es[i].stamps := Recorded(Recorded(prev[es[i].stamps], es[i].cycle, StartExecution, time),
                                                    es[i].cycle, ExitFogDeviceWaitingQueue, time)]
                 else prev
  {
    assert es[..i + 1][..i] == es[..i];
  }

  /** The pass, memo by memo: each memo has `false` for exactly the cycles of its entries sent back, added. */
  lemma {:induction false} DropAllMarks(m0: map<GeneratedData, map<int, bool>>, es: seq<Entry>,
                                        rec: map<int, set<(int, bool)>>, m: GeneratedData)
    requires Tracked(es, rec) && m in m0
    ensures DropAll(m0, es, rec)[m] == MarkedFalse(m0[m], DroppedCycles(es, rec, m))
    decreases |es|
  {
    if es == [] {
      assert DroppedCycles(es, rec, m) == {};
    } else {
      var n := |es| - 1;
      assert Tracked(es[..n], rec) by { DroppedCyclesStep(es, rec, m, n); }
      DropAllMarks(m0, es[..n], rec, m);
      DropMarksStep(m0, es, rec, m);
    }
  }

  lemma DropMarksStep(m0: map<GeneratedData, map<int, bool>>, es: seq<Entry>,
                      rec: map<int, set<(int, bool)>>, m: GeneratedData)
    requires Tracked(es, rec) && m in m0 && es != []
    requires Tracked(es[..|es| - 1], rec)
    requires DropAll(m0, es[..|es| - 1], rec)[m] == MarkedFalse(m0[m], DroppedCycles(es[..|es| - 1], rec, m))
    ensures DropAll(m0, es, rec)[m] == MarkedFalse(m0[m], DroppedCycles(es, rec, m))
  {
    var n := |es| - 1;
    DroppedCyclesStep(es, rec, m, n);
    DropAllStep(m0, es, rec, n);
    assert es[..n + 1] == es;
    if es[n].memo == m && GateAt(es[n], rec) == SendBack {
      MarkedFalseExtend(m0[m], DroppedCycles(es[..n], rec, m), es[n].cycle);
    }
  }

  /** The pass, table by table: each table has both times set for exactly the cycles of its released entries. */
  lemma {:induction false} StampAllRecords(s0: map<TaskState, map<int, State>>, es: seq<Entry>,
                                           rec: map<int, set<(int, bool)>>, time: real, ts: TaskState)
    requires Tracked(es, rec) && ts in s0
    ensures StampAll(s0, es, rec, time)[ts]
         == RecordedAll(s0[ts], ReleasedCycles(es, rec, ts), {StartExecution, ExitFogDeviceWaitingQueue}, time)
    decreases |es|
  {
    if es == [] {
      assert ReleasedCycles(es, rec, ts) == {};
      RecordedAllOfNothing(s0[ts], {StartExecution, ExitFogDeviceWaitingQueue}, time);
    } else {
      var n := |es| - 1;
      assert Tracked(es[..n], rec) by { ReleasedCyclesStep(es, rec, ts, n); }
      StampAllRecords(s0, es[..n], rec, time, ts);
      StampRecordsStep(s0, es, rec, time, ts);
    }
  }

  lemma StampRecordsStep(s0: map<TaskState, map<int, State>>, es: seq<Entry>,
                         rec: map<int, set<(int, bool)>>, time: real, ts: TaskState)
    requires Tracked(es, rec) && ts in s0 && es != []
    requires Tracked(es[..|es| - 1], rec)
    requires StampAll(s0, es[..|es| - 1], rec, time)[ts]
          == RecordedAll(s0[ts], ReleasedCycles(es[..|es| - 1], rec, ts), {StartExecution, ExitFogDeviceWaitingQueue}, time)
    ensures StampAll(s0, es, rec, time)[ts]
         == RecordedAll(s0[ts], ReleasedCycles(es, rec, ts), {StartExecution, ExitFogDeviceWaitingQueue}, time)
  {
    var n := |es| - 1;
    var fs := {StartExecution, ExitFogDeviceWaitingQueue};
    ReleasedCyclesStep(es, rec, ts, n);
    StampAllStep(s0, es, rec, time, n);
    assert es[..n + 1] == es;
    var prev := StampAll(s0, es[..n], rec, time);
    var cs := ReleasedCycles(es[..n], rec, ts);
    assert prev[ts] == RecordedAll(s0[ts], cs, fs, time);
    if es[n].stamps == ts && GateAt(es[n], rec) != KeepWaiting {
      assert ReleasedCycles(es, rec, ts) == cs + {es[n].cycle};
      assert StampAll(s0, es, rec, time)[ts]
          == Recorded(Recorded(prev[ts], es[n].cycle, StartExecution, time), es[n].cycle, ExitFogDeviceWaitingQueue, time);
      RecordedAllExtend(s0[ts], cs, fs, time, es[n].cycle, StartExecution, ExitFogDeviceWaitingQueue);
    } else {
      assert ReleasedCycles(es, rec, ts) == cs;
      assert StampAll(s0, es, rec, time)[ts] == prev[ts];
    }
  }

  /** The whole pass, on every memo and every timestamp table. */
  lemma PassEffect(m0: map<GeneratedData, map<int, bool>>, s0: map<TaskState, map<int, State>>,
                   es: seq<Entry>, rec: map<int, set<(int, bool)>>, time: real)
    requires Tracked(es, rec)
    ensures forall m :: m in m0 ==> DropAll(m0, es, rec)[m] == MarkedFalse(m0[m], DroppedCycles(es, rec, m))
    ensures forall ts :: ts in s0 ==>
      StampAll(s0, es, rec, time)[ts] == RecordedAll(s0[ts], ReleasedCycles(es, rec, ts), {StartExecution, ExitFogDeviceWaitingQueue}, time)
  {
    forall m | m in m0 ensures DropAll(m0, es, rec)[m] == MarkedFalse(m0[m], DroppedCycles(es, rec, m)) {
      DropAllMarks(m0, es, rec, m);
    }
    forall ts | ts in s0 ensures StampAll(s0, es, rec, time)[ts]
      == RecordedAll(s0[ts], ReleasedCycles(es, rec, ts), {StartExecution, ExitFogDeviceWaitingQueue}, time)
    {
      StampAllRecords(s0, es, rec, time, ts);
    }
  }

  /** The staged size of a stage-out: zero when the message names no files. */
  function StagedSize(t: Task, neededFiles: Option<seq<string>>): (r: int)
    requires neededFiles.Some? ==> forall i :: 0 <= i < |neededFiles.value| ==> neededFiles.value[i] in t.fileMap
    reads t
    ensures neededFiles.None? ==> r == 0
    ensures neededFiles.Some? ==> r == SumFileSizes(t.fileMap, neededFiles.value)
  {
    if neededFiles.None? then 0 else SumFileSizes(t.fileMap, neededFiles.value)
  }

  // ---------------------------------------------------------------------
  // The device

  class FogDevice {
    const id: int
    const name: string
    const characteristics: Characteristics
    const neighbors: seq<string>
    const upLinkBw: int
    const downLinkBw: int

    var isUpLinkBusy: bool
    var isDownLinkBusy: bool
    var upLinkQueue: seq<NetworkRequest>
    var downLinkQueue: seq<NetworkRequest>
    var nameToId: map<string, int>
    var idToName: map<int, string>
    var routingTable: map<string, string>
    /** The tasks submitted to this device, by id (the last submission of an id wins). */
    var tasks: map<int, Task>
    var waitingTasks: seq<int>
    /** cycle -> the (taskId, isData) pairs received for that cycle. */
    var receivedData: map<int, set<(int, bool)>>
    var vmList: seq<Vm>
    /** Every event this device has sent, in order. */
    var outbox: seq<Event>
    /** How many of this device's own "uplink free" / "downlink free" notices have been delivered back to it. */
    ghost var upReleasesDelivered: nat
    ghost var downReleasesDelivered: nat

    /**
     * A link is idle only with an empty FIFO, only transfers are queued, and
     * exactly one release notice is in flight per busy link (none per idle
     * link): at most one transfer per link is in service. Every waiting task
     * is known and has a received-data entry for its cycle.
     */
    ghost predicate Valid()
      reads this, tasks.Values`cycle
    {
      LinksValid() && TasksValid()
    }

    /** The link half of `Valid`. */
    ghost predicate LinksValid()
      reads this`upLinkQueue, this`downLinkQueue, this`isUpLinkBusy, this`isDownLinkBusy
      reads this`outbox, this`upReleasesDelivered, this`downReleasesDelivered
    {
      && upLinkBw > 0 && downLinkBw > 0
      && (!isUpLinkBusy ==> upLinkQueue == [])
      && (!isDownLinkBusy ==> downLinkQueue == [])
      && (forall i :: 0 <= i < |upLinkQueue| ==> Transfer(upLinkQueue[i].tag))
      && (forall i :: 0 <= i < |downLinkQueue| ==> Transfer(downLinkQueue[i].tag))
      && CountTag(outbox, UpLinkIsFree) == upReleasesDelivered + (if isUpLinkBusy then 1 else 0)
      && CountTag(outbox, DownLinkIsFree) == downReleasesDelivered + (if isDownLinkBusy then 1 else 0)
    }

    /** The task half of `Valid`. */
    ghost predicate TasksValid()
      reads this`tasks, this`receivedData, this`waitingTasks, tasks.Values`cycle
    {
      TasksKnown() && WaitingKnown()
    }

    /** Every task is filed under its own id and its cycle has a received-data set. */
    ghost predicate TasksKnown()
      reads this`tasks, this`receivedData, tasks.Values`cycle
    {
      forall k :: k in tasks ==> tasks[k].taskId == k && tasks[k].cycle in receivedData
    }

    /** Every waiting id names a known task. */
    ghost predicate WaitingKnown()
      reads this`tasks, this`waitingTasks
    {
      forall i :: 0 <= i < |waitingTasks| ==> waitingTasks[i] in tasks
    }

    constructor(id: int, name: string, characteristics: Characteristics, neighbors: seq<string>,
                upLinkBw: int, downLinkBw: int)
      requires upLinkBw > 0 && downLinkBw > 0
      ensures Valid()
      ensures this.id == id && this.name == name && this.characteristics == characteristics
      ensures this.neighbors == neighbors && this.upLinkBw == upLinkBw && this.downLinkBw == downLinkBw
      ensures !isUpLinkBusy && !isDownLinkBusy && upLinkQueue == [] && downLinkQueue == []
      ensures nameToId == map[] && idToName == map[] && routingTable == map[]
      ensures tasks == map[] && waitingTasks == [] && receivedData == map[] && vmList == [] && outbox == []
    {
      this.id := id;
      this.name := name;
      this.characteristics := characteristics;
      this.neighbors := neighbors;
      this.upLinkBw := upLinkBw;
      this.downLinkBw := downLinkBw;
      isUpLinkBusy := false;
      isDownLinkBusy := false;
      upLinkQueue := [];
      downLinkQueue := [];
      nameToId := map[];
      idToName := map[];
      routingTable := map[];
      tasks := map[];
      waitingTasks := [];
      receivedData := map[];
      vmList := [];
      outbox := [];
      upReleasesDelivered := 0;
      downReleasesDelivered := 0;
    }

    /** The uplink memos of every task this device knows. */
    function Memos(): set<GeneratedData>
      reads this`tasks, tasks.Values`cycleToGeneratedData
    {
      set t | t in tasks.Values :: t.cycleToGeneratedData
    }

    function Stamps(): set<TaskState>
      reads this`tasks, tasks.Values`taskState
    {
      set t | t in tasks.Values :: t.taskState
    }

    // --- links

    /** The uplink took `req`: queued behind the transfer in service, or started with its release scheduled. */
    twostate predicate UpOffered(req: NetworkRequest)
      reads this
    {
      && isUpLinkBusy
      && (old(isUpLinkBusy) ==> upLinkQueue == old(upLinkQueue) + [req] && outbox == old(outbox))
      && (!old(isUpLinkBusy) ==> upLinkQueue == [] && outbox == old(outbox) + Serve(req, id, UpLinkIsFree))
    }

    twostate predicate DownOffered(req: NetworkRequest)
      reads this
    {
      && isDownLinkBusy
      && (old(isDownLinkBusy) ==> downLinkQueue == old(downLinkQueue) + [req] && outbox == old(outbox))
      && (!old(isDownLinkBusy) ==> downLinkQueue == [] && outbox == old(outbox) + Serve(req, id, DownLinkIsFree))
    }

    /** Offer a transfer to the uplink: queue it while busy, otherwise start it. */
    method SendUp(req: NetworkRequest)
      requires Valid() && Transfer(req.tag)
      modifies this`isUpLinkBusy, this`upLinkQueue, this`outbox
      ensures Valid() && UpOffered(req)
    {
      if isUpLinkBusy {
        upLinkQueue := upLinkQueue + [req];
      } else {
        isUpLinkBusy := true;
        ServeCounts(outbox, req, id, UpLinkIsFree, DownLinkIsFree);
        outbox := outbox + Serve(req, id, UpLinkIsFree);
      }
    }

    /** Offer a transfer to the downlink: queue it while busy, otherwise start it. */
    method SendDown(req: NetworkRequest)
      requires Valid() && Transfer(req.tag)
      modifies this`isDownLinkBusy, this`downLinkQueue, this`outbox
      ensures Valid() && DownOffered(req)
    {
      if isDownLinkBusy {
        downLinkQueue := downLinkQueue + [req];
      } else {
        isDownLinkBusy := true;
        ServeCounts(outbox, req, id, DownLinkIsFree, UpLinkIsFree);
        outbox := outbox + Serve(req, id, DownLinkIsFree);
      }
    }

    /**
     * UP_LINK_IS_FREE: one of this device's uplink release notices arrives.
     * The head of the FIFO is served and releases the link after its own
     * delay; with an empty FIFO the link becomes idle.
     */
    method ProcessUpLinkIsFree()
      requires Valid() && CountTag(outbox, UpLinkIsFree) > upReleasesDelivered
      modifies this`isUpLinkBusy, this`upLinkQueue, this`outbox, this`upReleasesDelivered
      ensures Valid()
      ensures upReleasesDelivered == old(upReleasesDelivered) + 1
      ensures old(upLinkQueue) == [] ==> !isUpLinkBusy && upLinkQueue == [] && outbox == old(outbox)
      ensures old(upLinkQueue) != [] ==>
        isUpLinkBusy && upLinkQueue == old(upLinkQueue)[1..]
        && outbox == old(outbox) + Serve(old(upLinkQueue)[0], id, UpLinkIsFree)
    {
      upReleasesDelivered := upReleasesDelivered + 1;
      if upLinkQueue != [] {
        var req := upLinkQueue[0];
        upLinkQueue := upLinkQueue[1..];
        ServeCounts(outbox, req, id, UpLinkIsFree, DownLinkIsFree);
        outbox := outbox + Serve(req, id, UpLinkIsFree);
      } else {
        isUpLinkBusy := false;
      }
    }

    /** DOWN_LINK_IS_FREE: the same for the downlink. */
    method ProcessDownLinkIsFree()
      requires Valid() && CountTag(outbox, DownLinkIsFree) > downReleasesDelivered
      modifies this`isDownLinkBusy, this`downLinkQueue, this`outbox, this`downReleasesDelivered
      ensures Valid()
      ensures downReleasesDelivered == old(downReleasesDelivered) + 1
      ensures old(downLinkQueue) == [] ==> !isDownLinkBusy && downLinkQueue == [] && outbox == old(outbox)
      ensures old(downLinkQueue) != [] ==>
        isDownLinkBusy && downLinkQueue == old(downLinkQueue)[1..]
        && outbox == old(outbox) + Serve(old(downLinkQueue)[0], id, DownLinkIsFree)
    {
      downReleasesDelivered := downReleasesDelivered + 1;
      if downLinkQueue != [] {
        var req := downLinkQueue[0];
        downLinkQueue := downLinkQueue[1..];
        ServeCounts(outbox, req, id, DownLinkIsFree, UpLinkIsFree);
        outbox := outbox + Serve(req, id, DownLinkIsFree);
      } else {
        isDownLinkBusy := false;
      }
    }

    // --- routing

    method AddRoute(dst: string, hop: string)
      modifies this`routingTable
      ensures routingTable == old(routingTable)[dst := hop]
    {
      routingTable := routingTable[dst := hop];
    }

    /** `routingTable.getOrDefault(dst, null)`. */
    function NextHop(dst: string): (r: Option<string>)
      reads this`routingTable
      ensures r.Some? <==> dst in routingTable
      ensures r.Some? ==> r.value == routingTable[dst]
    {
      if dst in routingTable then Some(routingTable[dst]) else None
    }

    /**
     * `nameToId.get(nextHop(idToName.get(dst)))`: the id of the next hop
     * towards a device, or None where the lookup chain meets a null and the
     * unboxing throws.
     */
    function NextHopId(dst: int): (r: Option<int>)
      reads this`routingTable, this`idToName, this`nameToId
      ensures r.Some? <==>
        (dst in idToName && NextHop(idToName[dst]).Some? && NextHop(idToName[dst]).value in nameToId)
      ensures r.Some? ==> r.value == nameToId[routingTable[idToName[dst]]]
    {
      if dst in idToName && NextHop(idToName[dst]).Some? && NextHop(idToName[dst]).value in nameToId
      then Some(nameToId[NextHop(idToName[dst]).value])
      else None
    }

    /** BROADCAST_ID: remember another device's name and id in both directions. */
    method ProcessBroadcastId(msg: Payload)
      requires msg.BroadcastIdMsg?
      modifies this`nameToId, this`idToName
      ensures nameToId == old(nameToId)[msg.name := msg.id]
      ensures idToName == old(idToName)[msg.id := msg.name]
    {
      nameToId := nameToId[msg.name := msg.id];
      idToName := idToName[msg.id := msg.name];
    }

    /** RESOURCE_REQUEST: answer with this device's characteristics. */
    method ProcessResourceRequest(source: int)
      requires Valid()
      modifies this`outbox
      ensures Valid()
      ensures outbox == old(outbox) + [SendNow(source, ResourceRequestResponse, ResourceRequestResponseMsg(characteristics))]
    {
      Send(SendNow(source, ResourceRequestResponse, ResourceRequestResponseMsg(characteristics)));
    }

    /**
     * VM_CREATE: exactly one ack carrying the allocation result (an oracle
     * here); the VM joins the VM list only when it was allocated.
     */
    method ProcessVmCreate(source: int, msg: Payload, isAllocated: bool)
      requires Valid() && msg.VmCreateMsg? && msg.vm.Some?
      modifies this`outbox, this`vmList
      ensures Valid()
      ensures outbox == old(outbox) + [SendNow(source, VmCreateAck, VmCreateAckMsg(id, msg.vm.value.id, isAllocated))]
      ensures vmList == old(vmList) + (if isAllocated then [msg.vm.value] else [])
    {
      Send(SendNow(source, VmCreateAck, VmCreateAckMsg(id, msg.vm.value.id, isAllocated)));
      if isAllocated {
        vmList := vmList + [msg.vm.value];
      }
    }

    /** `sendNow`/`send` of an event that is not a link release notice. */
    method Send(e: Event)
      requires LinksValid() && Transfer(e.tag)
      modifies this`outbox
      ensures LinksValid() && outbox == old(outbox) + [e]
    {
      SendCounts(outbox, e, UpLinkIsFree);
      SendCounts(outbox, e, DownLinkIsFree);
      outbox := outbox + [e];
    }

    // --- data path

    /**
     * STAGE_OUT_DATA: a parent's output for a child whose device is
     * `dstFogDeviceId`. Sent back to this device at once when it is the
     * destination, carrying the summed size of the needed files; otherwise
     * uploaded towards the next hop, taking size/upLinkBw when it carries data
     * and no time otherwise, but carrying the task's whole output size.
     */
    method ProcessStageOutData(msg: Payload)
      requires Valid() && msg.StageOutDataMsg? && msg.taskId in tasks
      requires msg.neededFiles.Some? ==>
        forall i :: 0 <= i < |msg.neededFiles.value| ==> msg.neededFiles.value[i] in tasks[msg.taskId].fileMap
      requires msg.dstFogDeviceId != id ==> NextHopId(msg.dstFogDeviceId).Some?
      modifies this`isUpLinkBusy, this`upLinkQueue, this`outbox
      ensures Valid()
      ensures msg.dstFogDeviceId == id ==>
        && isUpLinkBusy == old(isUpLinkBusy) && upLinkQueue == old(upLinkQueue)
        && outbox == old(outbox) + [SendNow(id, DownloadedFogToFog,
             FogToFogMsg(id, msg.taskId, msg.cycle, StagedSize(tasks[msg.taskId], msg.neededFiles), msg.isData))]
      ensures msg.dstFogDeviceId != id ==>
        UpOffered(NetworkRequest(
          NextHopId(msg.dstFogDeviceId).value,
          if msg.isData then StagedSize(tasks[msg.taskId], msg.neededFiles) as real / upLinkBw as real else 0.0,
          FogToFog,
          FogToFogMsg(msg.dstFogDeviceId, msg.taskId, msg.cycle, tasks[msg.taskId].outputSize, msg.isData)))
    {
      var task := tasks[msg.taskId];
      var size := StagedSize(task, msg.neededFiles);
      if msg.dstFogDeviceId == id {
        Send(SendNow(id, DownloadedFogToFog, FogToFogMsg(id, msg.taskId, msg.cycle, size, msg.isData)));
      } else {
        Upload(msg.dstFogDeviceId, if msg.isData then size as real / upLinkBw as real else 0.0,
          FogToFogMsg(msg.dstFogDeviceId, msg.taskId, msg.cycle, task.outputSize, msg.isData));
      }
    }

    /** Send a FOG_TO_FOG transfer towards device `dst` through the uplink. */
    method Upload(dst: int, delay: real, payload: Payload)
      requires Valid() && NextHopId(dst).Some?
      modifies this`isUpLinkBusy, this`upLinkQueue, this`outbox
      ensures Valid() && UpOffered(NetworkRequest(NextHopId(dst).value, delay, FogToFog, payload))
    {
      SendUp(NetworkRequest(NextHopId(dst).value, delay, FogToFog, payload));
    }

    /** FOG_TO_FOG: download through the downlink, taking size/downLinkBw when the message carries data. */
    method ProcessFogToFog(msg: Payload)
      requires Valid() && msg.FogToFogMsg?
      modifies this`isDownLinkBusy, this`downLinkQueue, this`outbox
      ensures Valid()
      ensures DownOffered(NetworkRequest(id,
        if msg.isData then msg.data as real / downLinkBw as real else 0.0, DownloadedFogToFog, msg))
    {
      var delay := if msg.isData then msg.data as real / downLinkBw as real else 0.0;
      SendDown(NetworkRequest(id, delay, DownloadedFogToFog, msg));
    }

    /** EXECUTE_TASK_WITH_DATA: re-issue EXECUTE_TASK to this device through the downlink, with no delay. */
    method ProcessExecuteTaskWithData(msg: Payload)
      requires Valid() && msg.ExecuteTaskMsg?
      modifies this`isDownLinkBusy, this`downLinkQueue, this`outbox
      ensures Valid()
      ensures DownOffered(NetworkRequest(id, 0.0, ExecuteTask, msg))
    {
      SendDown(NetworkRequest(id, 0.0, ExecuteTask, msg));
    }

    /**
     * EXECUTE_TASK: the task is filed under its id, its cycle gets a
     * received-data set when it has none, and its enter-queue time is set.
     * It then runs at once when every parent delivered data, is sent back to
     * its owner with `false` memoised when some parent reported none, and
     * otherwise joins the waiting list with its enter-queue time set again.
     */
    method ProcessExecuteTask(msg: Payload, clock: real)
      requires Valid() && msg.ExecuteTaskMsg?
      modifies this`tasks, this`receivedData, this`waitingTasks, this`outbox
      modifies msg.task.cycleToGeneratedData`decided, msg.task.taskState`states
      ensures Valid()
      ensures tasks == old(tasks)[msg.task.taskId := msg.task]
      ensures receivedData == if msg.task.cycle in old(receivedData) then old(receivedData)
                              else old(receivedData)[msg.task.cycle := {}]
      ensures var t, g := msg.task, GateOf(msg.task.parents, receivedData[msg.task.cycle]);
        && (g == KeepWaiting ==> waitingTasks == old(waitingTasks) + [t.taskId] && outbox == old(outbox))
        && (g != KeepWaiting ==>
              waitingTasks == Without(old(waitingTasks), t.taskId) && outbox == old(outbox) + [ArrivalEvent(t, g, id)])
        && t.cycleToGeneratedData.decided
             == (if g == SendBack then old(t.cycleToGeneratedData.decided)[t.cycle := false]
                 else old(t.cycleToGeneratedData.decided))
        && t.taskState.states == RecordedAll(old(t.taskState.states), {t.cycle}, ArrivalStamps(g), clock)
    {
      var t := msg.task;
      var g := GateOf(t.parents, if t.cycle in receivedData then receivedData[t.cycle] else {});
      ArrivalEffects(t.taskState, t.cycleToGeneratedData, t.cycle, clock, g);
      Arrive(t, g);
    }

    /** The device side of an arrival: the task is filed, then dispatched or held. */
    method Arrive(t: Task, g: Gate)
      requires Valid()
      modifies this`tasks, this`receivedData, this`waitingTasks, this`outbox
      ensures Valid()
      ensures tasks == old(tasks)[t.taskId := t]
      ensures receivedData == if t.cycle in old(receivedData) then old(receivedData) else old(receivedData)[t.cycle := {}]
      ensures g == KeepWaiting ==> waitingTasks == old(waitingTasks) + [t.taskId] && outbox == old(outbox)
      ensures g != KeepWaiting ==>
        waitingTasks == Without(old(waitingTasks), t.taskId) && outbox == old(outbox) + [ArrivalEvent(t, g, id)]
    {
      Admit(t);
      if g != KeepWaiting {
        Dispatch(ArrivalEvent(t, g, id), t.taskId);
      } else {
        HoldArrival(t.taskId);
      }
    }

    /** The task side of an arrival: its timestamps, and `false` memoised when it is sent back. */
    static method ArrivalEffects(ts: TaskState, m: GeneratedData, cycle: int, clock: real, g: Gate)
      modifies ts`states, m`decided
      ensures ts.states == RecordedAll(old(ts.states), {cycle}, ArrivalStamps(g), clock)
      ensures m.decided == if g == SendBack then old(m.decided)[cycle := false] else old(m.decided)
    {
      StampArrival(ts, cycle, clock, g);
      if g == SendBack {
        MarkNoData(m, cycle);
      }
    }

    /** A task released on arrival: its send goes out and its id leaves the waiting list. */
    method Dispatch(e: Event, taskId: int)
      requires LinksValid() && WaitingKnown() && Transfer(e.tag)
      modifies this`waitingTasks, this`outbox
      ensures LinksValid() && WaitingKnown()
      ensures waitingTasks == Without(old(waitingTasks), taskId) && outbox == old(outbox) + [e]
    {
      Send(e);
      WithoutKeepsKnown(waitingTasks, taskId);
      waitingTasks := Without(waitingTasks, taskId);
    }

    /** A task that must wait joins the end of the waiting list. */
    method HoldArrival(taskId: int)
      requires WaitingKnown() && taskId in tasks
      modifies this`waitingTasks
      ensures WaitingKnown() && waitingTasks == old(waitingTasks) + [taskId]
    {
      waitingTasks := waitingTasks + [taskId];
    }

    /** `tasks.put(id, task)` and `receivedData.computeIfAbsent(cycle, new HashSet)`. */
    method Admit(t: Task)
      requires Valid()
      modifies this`tasks, this`receivedData
      ensures Valid()
      ensures tasks == old(tasks)[t.taskId := t]
      ensures receivedData == if t.cycle in old(receivedData) then old(receivedData) else old(receivedData)[t.cycle := {}]
    {
      tasks := tasks[t.taskId := t];
      if t.cycle !in receivedData {
        receivedData := receivedData[t.cycle := {}];
      }
    }

    /**
     * The timestamps of an arriving task: enter-queue, then start and exit
     * when it is released at once, or enter-queue again when it waits.
     */
    static method StampArrival(ts: TaskState, cycle: int, clock: real, g: Gate)
      modifies ts`states
      ensures ts.states == RecordedAll(old(ts.states), {cycle}, ArrivalStamps(g), clock)
    {
      ArrivalStampsBatch(ts.states, cycle, clock, g);
      ts.SetEnterFogDeviceWaitingQueue(cycle, clock);
      if g != KeepWaiting {
        ts.SetStartExecutionTime(cycle, clock);
        ts.SetExitFogDeviceWaitingQueue(cycle, clock);
      } else {
        ts.SetEnterFogDeviceWaitingQueue(cycle, clock);
      }
    }

    /** `cycleToGeneratedData.put(cycle, false)`. */
    static method MarkNoData(m: GeneratedData, cycle: int)
      modifies m`decided
      ensures m.decided == old(m.decided)[cycle := false]
    {
      m.decided := m.decided[cycle := false];
    }

    /** The two timestamps of a release: start of execution, then exit from the device queue. */
    static method StampRelease(ts: TaskState, cycle: int, clock: real)
      modifies ts`states
      ensures ts.states
        == Recorded(Recorded(old(ts.states), cycle, StartExecution, clock), cycle, ExitFogDeviceWaitingQueue, clock)
    {
      ts.SetStartExecutionTime(cycle, clock);
      ts.SetExitFogDeviceWaitingQueue(cycle, clock);
    }

    /** The snapshot of the waiting list names known tasks whose cycles are tracked. */
    lemma SnapshotIsTracked(es: seq<Entry>)
      requires Valid() && es == Snapshot(waitingTasks, tasks)
      ensures Tracked(es, receivedData)
      ensures forall i :: 0 <= i < |es| ==>
        es[i].task.taskId in tasks && es[i].memo in Memos() && es[i].stamps in Stamps()
    {
      forall i | 0 <= i < |es|
        ensures es[i].cycle in receivedData
        ensures es[i].task.taskId in tasks && es[i].memo in Memos() && es[i].stamps in Stamps()
      {
        var k := waitingTasks[i];
        assert k in tasks;
        assert es[i] == EntryOf(tasks[k]);
        assert tasks[k] in tasks.Values;
      }
    }

    /** Every entry the pass keeps came from the snapshot, so its task is known. */
    lemma KeptAreKnown(es: seq<Entry>, kept: seq<Entry>)
      requires forall i :: 0 <= i < |es| ==> es[i].task.taskId in tasks
      requires forall e :: e in kept ==> e in es
      ensures forall j :: 0 <= j < |kept| ==> Ids(kept)[j] in tasks
    {
      forall j | 0 <= j < |kept| ensures Ids(kept)[j] in tasks {
        assert kept[j] in kept;
        var k :| 0 <= k < |es| && es[k] == kept[j];
      }
    }

    /**
     * `m0` and `s0` hold the present memo and timestamp tables of every
     * object in `memos` and `stamps`.
     */
    static ghost predicate Captures(m0: map<GeneratedData, map<int, bool>>, s0: map<TaskState, map<int, State>>,
                                    memos: set<GeneratedData>, stamps: set<TaskState>)
      reads memos`decided, stamps`states
    {
      && (forall m :: m in memos ==> m in m0 && m0[m] == m.decided)
      && (forall ts :: ts in stamps ==> ts in s0 && s0[ts] == ts.states)
    }

    /** The tables are the pass's effect on the tables `m0` and `s0` it started from. */
    static ghost predicate TablesFrom(es: seq<Entry>, rec: map<int, set<(int, bool)>>,
                                      m0: map<GeneratedData, map<int, bool>>, s0: map<TaskState, map<int, State>>,
                                      memos: set<GeneratedData>, stamps: set<TaskState>, clock: real)
      requires Tracked(es, rec)
      reads memos`decided, stamps`states
    {
      && (forall m :: m in memos ==> m in m0 && m.decided == MarkedFalse(m0[m], DroppedCycles(es, rec, m)))
      && (forall ts :: ts in stamps ==>
            && ts in s0
            && ts.states == RecordedAll(s0[ts], ReleasedCycles(es, rec, ts), {StartExecution, ExitFogDeviceWaitingQueue}, clock))
    }

    /**
     * The release pass over `es` is done, measured against the outbox `o0`
     * and the tables `m0`, `s0` it started from: the waiting list keeps
     * exactly the entries that must still wait, in order; released tasks are
     * sent in list order; a task sent back has `false` memoised for its
     * cycle; every released task has its start and exit times set to
     * `clock`; no other memo entry or timestamp changes.
     */
    ghost predicate PassedFrom(es: seq<Entry>, o0: seq<Event>,
                               m0: map<GeneratedData, map<int, bool>>, s0: map<TaskState, map<int, State>>,
                               memos: set<GeneratedData>, stamps: set<TaskState>, clock: real)
      reads this`waitingTasks, this`outbox, this`receivedData, memos`decided, stamps`states
    {
      Tracked(es, receivedData) && ScanDone(es, o0) && TablesFrom(es, receivedData, m0, s0, memos, stamps, clock)
    }

    /** The waiting list and the outbox after the pass over `es`, which started from the outbox `o0`. */
    ghost predicate ScanDone(es: seq<Entry>, o0: seq<Event>)
      requires Tracked(es, receivedData)
      reads this`waitingTasks, this`outbox, this`receivedData
    {
      var r := Scan(es, receivedData, id);
      waitingTasks == Ids(r.0) && outbox == o0 + r.1
    }

    /** The iterator pass over the waiting list after data arrived. */
    method ReleaseWaitingTasks(clock: real, ghost m0: map<GeneratedData, map<int, bool>>, ghost s0: map<TaskState, map<int, State>>)
      requires Valid() && Captures(m0, s0, Memos(), Stamps())
      modifies this`waitingTasks, this`outbox, Memos()`decided, Stamps()`states
      ensures Valid()
      ensures PassedFrom(old(Snapshot(waitingTasks, tasks)), old(outbox), m0, s0, old(Memos()), old(Stamps()), clock)
    {
      var es := Snapshot(waitingTasks, tasks);
      SnapshotIsTracked(es);
      ReleasePass(es, clock, Memos(), Stamps(), m0, s0);
    }

    /** The release pass over the snapshot `es` of the waiting list. */
    method ReleasePass(es: seq<Entry>, clock: real, ghost memos: set<GeneratedData>, ghost stamps: set<TaskState>,
                       ghost m0: map<GeneratedData, map<int, bool>>, ghost s0: map<TaskState, map<int, State>>)
      requires LinksValid() && Tracked(es, receivedData) && Captures(m0, s0, memos, stamps)
      requires forall i :: 0 <= i < |es| ==> es[i].task.taskId in tasks && es[i].memo in memos && es[i].stamps in stamps
      modifies this`waitingTasks, this`outbox, memos`decided, stamps`states
      ensures LinksValid() && WaitingKnown()
      ensures PassedFrom(es, old(outbox), m0, s0, memos, stamps, clock)
    {
      var kept, sent := RunPass(es, receivedData, id, clock, memos, stamps, m0, s0);
      assert LinksValid();
      Commit(es, kept, sent);
    }

    /** The loop of the pass with its effect on the tables stated against the tables it started from. */
    static method RunPass(es: seq<Entry>, rec: map<int, set<(int, bool)>>, selfId: int, clock: real,
                          ghost memos: set<GeneratedData>, ghost stamps: set<TaskState>,
                          ghost m0: map<GeneratedData, map<int, bool>>, ghost s0: map<TaskState, map<int, State>>)
      returns (kept: seq<Entry>, sent: seq<Event>)
      requires Tracked(es, rec) && Captures(m0, s0, memos, stamps)
      requires forall i :: 0 <= i < |es| ==> es[i].memo in memos && es[i].stamps in stamps
      modifies memos`decided, stamps`states
      ensures (kept, sent) == Scan(es, rec, selfId)
      ensures TablesFrom(es, rec, m0, s0, memos, stamps, clock)
    {
      TablesStart(es, rec, m0, s0, clock, memos, stamps);
      ghost var md, sd;
      kept, sent, md, sd := PassOver(es, rec, selfId, clock, m0, s0, memos, stamps);
      TablesFinish(es, rec, m0, s0, md, sd, clock, memos, stamps);
    }

    /** The end of the pass: the waiting list becomes the kept entries and the sends go out. */
    method Commit(es: seq<Entry>, kept: seq<Entry>, sent: seq<Event>)
      requires LinksValid() && Tracked(es, receivedData) && (kept, sent) == Scan(es, receivedData, id)
      requires forall i :: 0 <= i < |es| ==> es[i].task.taskId in tasks
      modifies this`waitingTasks, this`outbox
      ensures LinksValid() && WaitingKnown()
      ensures ScanDone(es, old(outbox))
    {
      ScanSplits(es, receivedData, id);
      KeptAreKnown(es, kept);
      waitingTasks := Ids(kept);
      SendAll(sent);
    }

    /** The sends of the pass, one `sendNow` each in list order; none of them releases a link. */
    method SendAll(sent: seq<Event>)
      requires LinksValid() && forall j :: 0 <= j < |sent| ==> sent[j].tag == ExecuteTask || sent[j].tag == CloudletReturn
      modifies this`outbox
      ensures LinksValid() && outbox == old(outbox) + sent
    {
      NoReleaseCounted(sent, UpLinkIsFree);
      NoReleaseCounted(sent, DownLinkIsFree);
      CountTagAppend(outbox, sent, UpLinkIsFree);
      CountTagAppend(outbox, sent, DownLinkIsFree);
      outbox := outbox + sent;
    }

    /** The tables as the pass finds them. */
    static lemma TablesStart(es: seq<Entry>, rec: map<int, set<(int, bool)>>,
                             m0: map<GeneratedData, map<int, bool>>, s0: map<TaskState, map<int, State>>, clock: real,
                             memos: set<GeneratedData>, stamps: set<TaskState>)
      requires Tracked(es, rec) && Captures(m0, s0, memos, stamps)
      ensures TablesAt(es, rec, 0, m0, s0, m0, s0, clock, memos, stamps)
    {
      assert es[..0] == [];
    }

    /** A copy of the present memo and timestamp tables. */
    static lemma Capture(memos: set<GeneratedData>, stamps: set<TaskState>)
      returns (m0: map<GeneratedData, map<int, bool>>, s0: map<TaskState, map<int, State>>)
      ensures Captures(m0, s0, memos, stamps)
    {
      m0 := map m | m in memos :: m.decided;
      s0 := map ts | ts in stamps :: ts.states;
    }

    static lemma TablesFinish(es: seq<Entry>, rec: map<int, set<(int, bool)>>,
                              m0: map<GeneratedData, map<int, bool>>, s0: map<TaskState, map<int, State>>,
                              md: map<GeneratedData, map<int, bool>>, sd: map<TaskState, map<int, State>>, clock: real,
                              memos: set<GeneratedData>, stamps: set<TaskState>)
      requires Tracked(es, rec)
      requires forall m :: m in memos ==> m in m0
      requires forall ts :: ts in stamps ==> ts in s0
      requires TablesAt(es, rec, |es|, m0, s0, md, sd, clock, memos, stamps)
      ensures TablesFrom(es, rec, m0, s0, memos, stamps, clock)
    {
      assert es[..|es|] == es;
      PassEffect(m0, s0, es, rec, clock);
    }

    /** The kept list and the sends after the first `i` entries of the pass. */
    static ghost predicate ScanAt(es: seq<Entry>, rec: map<int, set<(int, bool)>>, selfId: int, i: int,
                                  kept: seq<Entry>, sent: seq<Event>)
      requires Tracked(es, rec) && 0 <= i <= |es|
    {
      assert Tracked(es[..i], rec);
      (kept, sent) == Scan(es[..i], rec, selfId)
    }

    /**
     * The memo and timestamp tables after the first `i` entries of the pass:
     * `md` and `sd` hold the current tables, which are the pass's effect on
     * the tables `m0` and `s0` it started from.
     */
    static ghost predicate TablesAt(es: seq<Entry>, rec: map<int, set<(int, bool)>>, i: int,
                                    m0: map<GeneratedData, map<int, bool>>, s0: map<TaskState, map<int, State>>,
                                    md: map<GeneratedData, map<int, bool>>, sd: map<TaskState, map<int, State>>, clock: real,
                                    memos: set<GeneratedData>, stamps: set<TaskState>)
      requires Tracked(es, rec) && 0 <= i <= |es|
      reads memos`decided, stamps`states
    {
      MemosAt(es, rec, i, m0, md, memos) && StampsAt(es, rec, i, s0, sd, clock, stamps)
    }

    /** The memo half of `TablesAt`. */
    static ghost predicate MemosAt(es: seq<Entry>, rec: map<int, set<(int, bool)>>, i: int,
                                   m0: map<GeneratedData, map<int, bool>>, md: map<GeneratedData, map<int, bool>>,
                                   memos: set<GeneratedData>)
      requires Tracked(es, rec) && 0 <= i <= |es|
      reads memos`decided
    {
      assert Tracked(es[..i], rec);
      && md == DropAll(m0, es[..i], rec)
      && (forall m :: m in memos ==> m in md && m.decided == md[m])
    }

    /** The timestamp half of `TablesAt`. */
    static ghost predicate StampsAt(es: seq<Entry>, rec: map<int, set<(int, bool)>>, i: int,
                                    s0: map<TaskState, map<int, State>>, sd: map<TaskState, map<int, State>>, clock: real,
                                    stamps: set<TaskState>)
      requires Tracked(es, rec) && 0 <= i <= |es|
      reads stamps`states
    {
      assert Tracked(es[..i], rec);
      && sd == StampAll(s0, es[..i], rec, clock)
      && (forall ts :: ts in stamps ==> ts in sd && ts.states == sd[ts])
    }

    /**
     * The loop of the release pass over the snapshot `es`: returns the
     * entries kept waiting and the sends of the released ones, in order.
     */
    static method PassOver(es: seq<Entry>, rec: map<int, set<(int, bool)>>, selfId: int, clock: real,
                           ghost m0: map<GeneratedData, map<int, bool>>, ghost s0: map<TaskState, map<int, State>>,
                           ghost memos: set<GeneratedData>, ghost stamps: set<TaskState>)
      returns (kept: seq<Entry>, sent: seq<Event>,
               ghost md: map<GeneratedData, map<int, bool>>, ghost sd: map<TaskState, map<int, State>>)
      requires Tracked(es, rec)
      requires forall i :: 0 <= i < |es| ==> es[i].memo in memos && es[i].stamps in stamps
      requires TablesAt(es, rec, 0, m0, s0, m0, s0, clock, memos, stamps)
      modifies memos`decided, stamps`states
      ensures (kept, sent) == Scan(es, rec, selfId)
      ensures TablesAt(es, rec, |es|, m0, s0, md, sd, clock, memos, stamps)
    {
      md, sd := m0, s0;
      kept, sent := [], [];
      assert es[..0] == [];
      var i := 0;
      while i < |es|
        invariant 0 <= i <= |es|
        invariant ScanAt(es, rec, selfId, i, kept, sent)
        invariant MemosAt(es, rec, i, m0, md, memos)
        invariant StampsAt(es, rec, i, s0, sd, clock, stamps)
      {
        ScanStep(es, rec, selfId, i);
        var g := GateAt(es[i], rec);
        if g == KeepWaiting {
          kept := kept + [es[i]];
        } else {
          sent := sent + [ReleaseEvent(es[i], g, selfId)];
        }
        md := MemoStep(es, rec, i, m0, md, memos);
        sd := StampStep(es, rec, i, s0, sd, clock, stamps);
        i := i + 1;
      }
      assert es[..|es|] == es;
    }

    /** One iteration of the pass on the memos: an entry sent back has `false` memoised for its cycle. */
    static method MemoStep(es: seq<Entry>, rec: map<int, set<(int, bool)>>, i: int,
                           ghost m0: map<GeneratedData, map<int, bool>>, ghost md: map<GeneratedData, map<int, bool>>,
                           ghost memos: set<GeneratedData>)
      returns (ghost md': map<GeneratedData, map<int, bool>>)
      requires Tracked(es, rec) && 0 <= i < |es| && es[i].memo in memos
      requires MemosAt(es, rec, i, m0, md, memos)
      modifies es[i].memo`decided
      ensures MemosAt(es, rec, i + 1, m0, md', memos)
    {
      var e := es[i];
      DropAllStep(m0, es, rec, i);
      if GateAt(e, rec) == SendBack {
        MarkNoData(e.memo, e.cycle);
        md' := md[e.memo := md[e.memo][e.cycle := false]];
      } else {
        md' := md;
      }
    }

    /** One iteration of the pass on the timestamps: a released entry has its start and exit times set. */
    static method StampStep(es: seq<Entry>, rec: map<int, set<(int, bool)>>, i: int,
                            ghost s0: map<TaskState, map<int, State>>, ghost sd: map<TaskState, map<int, State>>,
                            clock: real, ghost stamps: set<TaskState>)
      returns (ghost sd': map<TaskState, map<int, State>>)
      requires Tracked(es, rec) && 0 <= i < |es| && es[i].stamps in stamps
      requires StampsAt(es, rec, i, s0, sd, clock, stamps)
      modifies es[i].stamps`states
      ensures StampsAt(es, rec, i + 1, s0, sd', clock, stamps)
    {
      var e := es[i];
      StampAllStep(s0, es, rec, clock, i);
      if GateAt(e, rec) != KeepWaiting {
        StampRelease(e.stamps, e.cycle, clock);
        sd' := sd[e.stamps := Recorded(Recorded(sd[e.stamps], e.cycle, StartExecution, clock),
                                       e.cycle, ExitFogDeviceWaitingQueue, clock)];
      } else {
        sd' := sd;
      }
    }

    /** Record that task `taskId` of cycle `cycle` delivered its data (`isData`) or reported none. */
    method Receive(cycle: int, taskId: int, isData: bool)
      requires Valid()
      modifies this`receivedData
      ensures Valid()
      ensures receivedData == old(receivedData)[cycle :=
        (if cycle in old(receivedData) then old(receivedData)[cycle] else {}) + {(taskId, isData)}]
    {
      var got := if cycle in receivedData then receivedData[cycle] else {};
      receivedData := receivedData[cycle := got + {(taskId, isData)}];
    }

    /**
     * DOWNLOADED_FOG_TO_FOG. Data for this device adds `(taskId, isData)` to
     * the received set of its cycle and runs the release pass; data for
     * another device is relayed towards it through the uplink, taking
     * size/upLinkBw whether or not it carries data.
     */
    method ProcessDownloadedFogToFog(msg: Payload, clock: real,
                                     ghost m0: map<GeneratedData, map<int, bool>>, ghost s0: map<TaskState, map<int, State>>)
      requires Valid() && msg.FogToFogMsg? && Captures(m0, s0, Memos(), Stamps())
      requires msg.dstFogDeviceId != id ==> NextHopId(msg.dstFogDeviceId).Some?
      modifies this`receivedData, this`waitingTasks, this`outbox, this`isUpLinkBusy, this`upLinkQueue
      modifies Memos()`decided, Stamps()`states
      ensures Valid()
      ensures msg.dstFogDeviceId == id ==>
        && receivedData == old(receivedData)[msg.cycle :=
             (if msg.cycle in old(receivedData) then old(receivedData)[msg.cycle] else {}) + {(msg.taskId, msg.isData)}]
        && isUpLinkBusy == old(isUpLinkBusy) && upLinkQueue == old(upLinkQueue)
        && PassedFrom(old(Snapshot(waitingTasks, tasks)), old(outbox), m0, s0, old(Memos()), old(Stamps()), clock)
      ensures msg.dstFogDeviceId != id ==>
        && receivedData == old(receivedData) && waitingTasks == old(waitingTasks)
        && Captures(m0, s0, old(Memos()), old(Stamps()))
        && UpOffered(NetworkRequest(NextHopId(msg.dstFogDeviceId).value,
                                    msg.data as real / upLinkBw as real, FogToFog, msg))
    {
      if id == msg.dstFogDeviceId {
        ReceiveAndRelease(msg.cycle, msg.taskId, msg.isData, clock, m0, s0);
      } else {
        Upload(msg.dstFogDeviceId, msg.data as real / upLinkBw as real, msg);
      }
    }

    /** Data for this device: record it, then run the release pass on the waiting list as it stood. */
    method ReceiveAndRelease(cycle: int, taskId: int, isData: bool, clock: real,
                             ghost m0: map<GeneratedData, map<int, bool>>, ghost s0: map<TaskState, map<int, State>>)
      requires Valid() && Captures(m0, s0, Memos(), Stamps())
      modifies this`receivedData, this`waitingTasks, this`outbox, Memos()`decided, Stamps()`states
      ensures Valid()
      ensures receivedData == old(receivedData)[cycle :=
        (if cycle in old(receivedData) then old(receivedData)[cycle] else {}) + {(taskId, isData)}]
      ensures PassedFrom(old(Snapshot(waitingTasks, tasks)), old(outbox), m0, s0, old(Memos()), old(Stamps()), clock)
    {
      ghost var es, memos, stamps := Snapshot(waitingTasks, tasks), Memos(), Stamps();
      Receive(cycle, taskId, isData);
      assert es == Snapshot(waitingTasks, tasks) && memos == Memos() && stamps == Stamps();
      ReleaseWaitingTasks(clock, m0, s0);
    }
  }
}
