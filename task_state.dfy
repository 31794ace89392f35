/**
 * Per-cycle timestamps of one task (misty/computation/TaskState.java).
 * A TaskState object is shared by every cycle copy of a task, so it is a class.
 */
module TaskStates {
  import opened Wrappers

  /** The six timestamps recorded for one cycle; a fresh record is all zeros. */
  datatype State = State(
    enterBrokerWaitingQueue: real,
    exitBrokerWaitingQueue: real,
    enterFogDeviceWaitingQueue: real,
    exitFogDeviceWaitingQueue: real,
    startExecutionTime: real,
    endExecutionTime: real)

  const ZeroState := State(0.0, 0.0, 0.0, 0.0, 0.0, 0.0)

  /** Names one of the six timestamps of a State. */
  datatype Stamp =
    | EnterBrokerWaitingQueue
    | ExitBrokerWaitingQueue
    | EnterFogDeviceWaitingQueue
    | ExitFogDeviceWaitingQueue
    | StartExecution
    | EndExecution

  function Get(s: State, f: Stamp): real
  {
    match f
    case EnterBrokerWaitingQueue => s.enterBrokerWaitingQueue
    case ExitBrokerWaitingQueue => s.exitBrokerWaitingQueue
    case EnterFogDeviceWaitingQueue => s.enterFogDeviceWaitingQueue
    case ExitFogDeviceWaitingQueue => s.exitFogDeviceWaitingQueue
    case StartExecution => s.startExecutionTime
    case EndExecution => s.endExecutionTime
  }

  /** The record with one timestamp overwritten. */
  function With(s: State, f: Stamp, time: real): (r: State)
    ensures Get(r, f) == time
  {
    match f
    case EnterBrokerWaitingQueue => s.(enterBrokerWaitingQueue := time)
    case ExitBrokerWaitingQueue => s.(exitBrokerWaitingQueue := time)
    case EnterFogDeviceWaitingQueue => s.(enterFogDeviceWaitingQueue := time)
    case ExitFogDeviceWaitingQueue => s.(exitFogDeviceWaitingQueue := time)
    case StartExecution => s.(startExecutionTime := time)
    case EndExecution => s.(endExecutionTime := time)
  }

  /**
   * The effect of one setter on the cycle table: the cycle's record is
   * created all-zero when absent, then one timestamp is overwritten.
   */
  function Recorded(states: map<int, State>, cycle: int, f: Stamp, time: real): (r: map<int, State>)
    ensures r.Keys == states.Keys + {cycle}
    ensures Get(r[cycle], f) == time
  {
    states[cycle := With(if cycle in states then states[cycle] else ZeroState, f, time)]
  }

  /** Overwriting one timestamp leaves the other five as they were. */
  lemma WithKeepsOthers(s: State, f: Stamp, time: real)
    ensures forall g: Stamp :: g != f ==> Get(With(s, f, time), g) == Get(s, g)
  {
  }

  /** One setter call leaves the other timestamps of the cycle, and every other cycle, as they were. */
  lemma RecordedKeepsOthers(states: map<int, State>, cycle: int, f: Stamp, time: real)
    ensures forall g: Stamp :: g != f ==>
      Get(Recorded(states, cycle, f, time)[cycle], g) == (if cycle in states then Get(states[cycle], g) else 0.0)
    ensures forall c :: c in states && c != cycle ==> Recorded(states, cycle, f, time)[c] == states[c]
  {
    WithKeepsOthers(if cycle in states then states[cycle] else ZeroState, f, time);
  }

  lemma StatesEqual(s: State, t: State)
    requires forall g: Stamp :: Get(s, g) == Get(t, g)
    ensures s == t
  {
    assert Get(s, EnterBrokerWaitingQueue) == Get(t, EnterBrokerWaitingQueue);
    assert Get(s, ExitBrokerWaitingQueue) == Get(t, ExitBrokerWaitingQueue);
    assert Get(s, EnterFogDeviceWaitingQueue) == Get(t, EnterFogDeviceWaitingQueue);
    assert Get(s, ExitFogDeviceWaitingQueue) == Get(t, ExitFogDeviceWaitingQueue);
    assert Get(s, StartExecution) == Get(t, StartExecution);
    assert Get(s, EndExecution) == Get(t, EndExecution);
  }

  /** Recording the same timestamp twice keeps only the later time. */
  lemma LastWriteWins(states: map<int, State>, cycle: int, f: Stamp, t1: real, t2: real)
    ensures Recorded(Recorded(states, cycle, f, t1), cycle, f, t2) == Recorded(states, cycle, f, t2)
  {
    var a := Recorded(Recorded(states, cycle, f, t1), cycle, f, t2);
    var b := Recorded(states, cycle, f, t2);
    StatesEqual(a[cycle], b[cycle]);
  }

  /** Writes to different timestamps, or to different cycles, commute. */
  lemma WritesCommute(states: map<int, State>, c1: int, f1: Stamp, t1: real, c2: int, f2: Stamp, t2: real)
    requires c1 != c2 || f1 != f2
    ensures Recorded(Recorded(states, c1, f1, t1), c2, f2, t2)
         == Recorded(Recorded(states, c2, f2, t2), c1, f1, t1)
  {
    var a := Recorded(Recorded(states, c1, f1, t1), c2, f2, t2);
    var b := Recorded(Recorded(states, c2, f2, t2), c1, f1, t1);
    if c1 == c2 {
      StatesEqual(a[c1], b[c1]);
    }
  }

  /** The record with every timestamp in `fs` overwritten. */
  function WithAll(s: State, fs: set<Stamp>, time: real): (r: State)
    ensures forall g: Stamp :: Get(r, g) == if g in fs then time else Get(s, g)
  {
    State(
      if EnterBrokerWaitingQueue in fs then time else s.enterBrokerWaitingQueue,
      if ExitBrokerWaitingQueue in fs then time else s.exitBrokerWaitingQueue,
      if EnterFogDeviceWaitingQueue in fs then time else s.enterFogDeviceWaitingQueue,
      if ExitFogDeviceWaitingQueue in fs then time else s.exitFogDeviceWaitingQueue,
      if StartExecution in fs then time else s.startExecutionTime,
      if EndExecution in fs then time else s.endExecutionTime)
  }

  /** The table after the timestamps `fs` of every cycle in `cycles` were set to one time. */
  function RecordedAll(states: map<int, State>, cycles: set<int>, fs: set<Stamp>, time: real): (r: map<int, State>)
    ensures r.Keys == states.Keys + cycles
  {
    map c | c in states.Keys + cycles ::
      if c in cycles then WithAll(if c in states then states[c] else ZeroState, fs, time) else states[c]
  }

  /** Each cycle of the batch has the timestamps `fs` set on its old or fresh record; other cycles are untouched. */
  lemma RecordedAllCases(states: map<int, State>, cycles: set<int>, fs: set<Stamp>, time: real)
    ensures forall c :: c in cycles ==>
      RecordedAll(states, cycles, fs, time)[c] == WithAll(if c in states then states[c] else ZeroState, fs, time)
    ensures forall c :: c in states && c !in cycles ==> RecordedAll(states, cycles, fs, time)[c] == states[c]
  {
  }

  /** A batch write leaves the timestamps outside `fs` of a recorded cycle as they were. */
  lemma RecordedAllKeepsOthers(states: map<int, State>, cycles: set<int>, fs: set<Stamp>, time: real, c: int, g: Stamp)
    requires c in states && g !in fs
    ensures c in RecordedAll(states, cycles, fs, time)
    ensures Get(RecordedAll(states, cycles, fs, time)[c], g) == Get(states[c], g)
  {
  }

  lemma RecordedAllOfNothing(states: map<int, State>, fs: set<Stamp>, time: real)
    ensures RecordedAll(states, {}, fs, time) == states
  {
  }

  /** Two setter calls on one record, starting from a record already written or not. */
  lemma WithTwiceIsWithAll(s0: State, base: State, f1: Stamp, f2: Stamp, time: real)
    requires s0 == base || s0 == WithAll(base, {f1, f2}, time)
    ensures With(With(s0, f1, time), f2, time) == WithAll(base, {f1, f2}, time)
  {
    StatesEqual(With(With(s0, f1, time), f2, time), WithAll(base, {f1, f2}, time));
  }

  /**
   * Setting the timestamps `fs` of one more cycle, one setter call per
   * timestamp, extends a batch of such writes by that cycle.
   */
  lemma RecordedAllExtend(states: map<int, State>, cycles: set<int>, fs: set<Stamp>, time: real,
                          c: int, f1: Stamp, f2: Stamp)
    requires fs == {f1, f2}
    ensures Recorded(Recorded(RecordedAll(states, cycles, fs, time), c, f1, time), c, f2, time)
         == RecordedAll(states, cycles + {c}, fs, time)
  {
    var x := RecordedAll(states, cycles, fs, time);
    var base := if c in states then states[c] else ZeroState;
    var s0 := if c in x then x[c] else ZeroState;
    RecordedTwice(x, c, f1, f2, time);
    assert s0 == base || s0 == WithAll(base, fs, time);
    WithTwiceIsWithAll(s0, base, f1, f2, time);
    RecordedAllInsert(states, cycles, fs, time, c);
  }

  lemma RecordedTwice(x: map<int, State>, c: int, f1: Stamp, f2: Stamp, time: real)
    ensures Recorded(Recorded(x, c, f1, time), c, f2, time)
         == x[c := With(With(if c in x then x[c] else ZeroState, f1, time), f2, time)]
  {
  }

  lemma RecordedAllInsert(states: map<int, State>, cycles: set<int>, fs: set<Stamp>, time: real, c: int)
    ensures RecordedAll(states, cycles + {c}, fs, time)
         == RecordedAll(states, cycles, fs, time)[c := WithAll(if c in states then states[c] else ZeroState, fs, time)]
  {
  }

  /** One setter call on a batch of writes to the same timestamp and time. */
  lemma RecordedAllExtendOne(states: map<int, State>, cycles: set<int>, f: Stamp, time: real, c: int)
    ensures Recorded(RecordedAll(states, cycles, {f}, time), c, f, time)
         == RecordedAll(states, cycles + {c}, {f}, time)
  {
    var a := Recorded(RecordedAll(states, cycles, {f}, time), c, f, time);
    var b := RecordedAll(states, cycles + {c}, {f}, time);
    StatesEqual(a[c], b[c]);
  }

  /** One setter call is a batch of one write. */
  lemma RecordedIsBatchOfOne(states: map<int, State>, c: int, f: Stamp, time: real)
    ensures Recorded(states, c, f, time) == RecordedAll(states, {c}, {f}, time)
  {
    var a := Recorded(states, c, f, time);
    var b := RecordedAll(states, {c}, {f}, time);
    StatesEqual(a[c], b[c]);
  }

  /** A further setter call on the same cycle and time adds its timestamp to the batch. */
  lemma RecordedAllAddStamp(states: map<int, State>, c: int, fs: set<Stamp>, f: Stamp, time: real)
    ensures Recorded(RecordedAll(states, {c}, fs, time), c, f, time) == RecordedAll(states, {c}, fs + {f}, time)
  {
    var a := Recorded(RecordedAll(states, {c}, fs, time), c, f, time);
    var b := RecordedAll(states, {c}, fs + {f}, time);
    StatesEqual(a[c], b[c]);
  }

  class TaskState {
    var states: map<int, State>

    constructor()
      ensures states == map[]
    {
      states := map[];
    }

    /** `computeIfAbsent(cycle, new State())` followed by one field assignment. */
    method Record(cycle: int, f: Stamp, time: real)
      modifies this`states
      ensures states == Recorded(old(states), cycle, f, time)
    {
      if cycle !in states {
        states := states[cycle := ZeroState];
      }
      states := states[cycle := With(states[cycle], f, time)];
    }

    method SetEnterBrokerWaitingQueue(cycle: int, time: real)
      modifies this`states
      ensures states == Recorded(old(states), cycle, EnterBrokerWaitingQueue, time)
    {
      Record(cycle, EnterBrokerWaitingQueue, time);
    }

    method SetExitBrokerWaitingQueue(cycle: int, time: real)
      modifies this`states
      ensures states == Recorded(old(states), cycle, ExitBrokerWaitingQueue, time)
    {
      Record(cycle, ExitBrokerWaitingQueue, time);
    }

    method SetEnterFogDeviceWaitingQueue(cycle: int, time: real)
      modifies this`states
      ensures states == Recorded(old(states), cycle, EnterFogDeviceWaitingQueue, time)
    {
      Record(cycle, EnterFogDeviceWaitingQueue, time);
    }

    method SetExitFogDeviceWaitingQueue(cycle: int, time: real)
      modifies this`states
      ensures states == Recorded(old(states), cycle, ExitFogDeviceWaitingQueue, time)
    {
      Record(cycle, ExitFogDeviceWaitingQueue, time);
    }

    method SetStartExecutionTime(cycle: int, time: real)
      modifies this`states
      ensures states == Recorded(old(states), cycle, StartExecution, time)
    {
      Record(cycle, StartExecution, time);
    }

    method SetEndExecutionTime(cycle: int, time: real)
      modifies this`states
      ensures states == Recorded(old(states), cycle, EndExecution, time)
    {
      Record(cycle, EndExecution, time);
    }

    /** `states.get(cycle)`: absent cycles give null. */
    function GetState(cycle: int): (r: Option<State>)
      reads this
      ensures r.Some? <==> cycle in states
      ensures r.Some? ==> r.value == states[cycle]
    {
      if cycle in states then Some(states[cycle]) else None
    }
  }
}
