/** The agent's task memory (engine/task_memory.py): the current task, when
    it started, when the agent last looked, and a bounded history of earlier
    tasks. The memory file is a field of `TaskMemoryStore`; the clock is a
    parameter, and times are numbers that grow with the clock. */
module TaskMemory {
  import opened Wrappers
  import opened Text
  import opened Json

  const MaxHistory := 200

  /** A task dictionary; it is "truthy" when it has at least one key. */
  type Task = map<string, Json>

  datatype Entry = Entry(task: Task, start: Option<nat>, end: nat)

  /** The memory record; an absent `current_task` or `history` reads as
      `None` or the empty list. */
  datatype Memory = Memory(current: Option<Task>, taskStart: Option<nat>, lastSeen: Option<nat>, history: seq<Entry>)

  const Default := Memory(None, None, None, [])

  predicate Truthy(t: Option<Task>) {
    t.Some? && t.value != map[]
  }

  /** `task.get("task_type")` */
  function TypeOf(t: Task): Option<Json> {
    if "task_type" in t then Some(t["task_type"]) else None
  }

  /** `load_memory`: a file that cannot be read or parsed gives the default. */
  function Loaded(file: Option<Memory>): (m: Memory)
    ensures file.None? ==> m == Default && m.current.None?
  {
    file.GetOr(Default)
  }

  /** Whether `update_task` replaces the current task. */
  predicate Replaces(m: Memory, task: Task) {
    !Truthy(m.current) || TypeOf(m.current.value) != TypeOf(task)
  }

  /** The record `update_task(task)` saves at time `now`. */
  function Updated(m: Memory, task: Task, now: nat): (r: Memory)
    ensures r.lastSeen == Some(now)
    ensures Replaces(m, task) ==> r.current == Some(task) && r.taskStart == Some(now)
    ensures !Replaces(m, task) ==> r.current == m.current && r.taskStart == m.taskStart && r.history == m.history
    ensures Truthy(m.current) && Replaces(m, task) ==>
      r.history == Tail(m.history + [Entry(m.current.value, m.taskStart, now)], MaxHistory)
    ensures !Truthy(m.current) ==> r.history == m.history
  {
    if !Replaces(m, task) then m.(lastSeen := Some(now))
    else
      var history := if Truthy(m.current)
        then Tail(m.history + [Entry(m.current.value, m.taskStart, now)], MaxHistory)
        else m.history;
      Memory(Some(task), Some(now), Some(now), history)
  }

  /** The record `reset_task()` saves: `end` and `now` are its two clock reads. */
  function Reset(m: Memory, end: nat, now: nat): (r: Memory)
    ensures r.current.None? && r.taskStart.None? && r.lastSeen == Some(now)
    ensures Truthy(m.current) ==> r.history == m.history + [Entry(m.current.value, m.taskStart, end)]
    ensures !Truthy(m.current) ==> r.history == m.history
  {
    var history := if Truthy(m.current) then m.history + [Entry(m.current.value, m.taskStart, end)] else m.history;
    Memory(None, None, Some(now), history)
  }

  class TaskMemoryStore {
    /** The memory file; `None` when it is missing or not JSON. */
    var file: Option<Memory>

    constructor (f: Option<Memory>)
      ensures file == f
    {
      file := f;
    }

    method LoadMemory() returns (m: Memory)
      ensures m == Loaded(file)
    {
      if file.Some? {
        m := file.value;
      } else {
        m := Default;
      }
    }

    method SaveMemory(m: Memory)
      modifies this
      ensures file == Some(m)
    {
      file := Some(m);
    }

    /** `update_task(task)` */
    method UpdateTask(task: Task, now: nat) returns (m: Memory)
      modifies this
      ensures m == Updated(Loaded(old(file)), task, now)
      ensures file == Some(m)
    {
      m := LoadMemory();
      var cur := m.current;
      if !Truthy(cur) || TypeOf(cur.value) != TypeOf(task) {
        if Truthy(cur) {
          var history := m.history + [Entry(cur.value, m.taskStart, now)];
          m := m.(history := Tail(history, MaxHistory));
        }
        m := m.(current := Some(task), taskStart := Some(now));
      }
      m := m.(lastSeen := Some(now));
      SaveMemory(m);
    }

    /** `get_current_task()` */
    method GetCurrentTask() returns (t: Option<Task>)
      ensures t == Loaded(file).current
    {
      var m := LoadMemory();
      t := m.current;
    }

    /** `reset_task()` */
    method ResetTask(end: nat, now: nat) returns (m: Memory)
      modifies this
      ensures m == Reset(Loaded(old(file)), end, now)
      ensures file == Some(m)
    {
      m := LoadMemory();
      if Truthy(m.current) {
        m := m.(history := m.history + [Entry(m.current.value, m.taskStart, end)]);
      }
      m := m.(current := None, taskStart := None, lastSeen := Some(now));
      SaveMemory(m);
    }
  }

  // ---------------------------------------------------------------------------
  // Properties
  // ---------------------------------------------------------------------------

  /** A task switch pushes the old task as the newest history entry and keeps
      the 200 newest entries: all of them below the bound, exactly 200 at it. */
  lemma SwitchPushesBounded(m: Memory, task: Task, now: nat)
    requires Truthy(m.current) && Replaces(m, task)
    ensures |Updated(m, task, now).history| <= MaxHistory
    ensures |m.history| >= MaxHistory ==> |Updated(m, task, now).history| == MaxHistory
    ensures var pushed := m.history + [Entry(m.current.value, m.taskStart, now)];
      Updated(m, task, now).history == pushed[|pushed| - |Updated(m, task, now).history|..]
    ensures Updated(m, task, now).history[|Updated(m, task, now).history| - 1] == Entry(m.current.value, m.taskStart, now)
    ensures |m.history| < MaxHistory ==> Updated(m, task, now).history == m.history + [Entry(m.current.value, m.taskStart, now)]
  {
  }

  /** An update with the same task type keeps the current task, even when its
      other fields differ; only `last_seen` moves. */
  lemma SameTypeKeepsTask(m: Memory, task: Task, now: nat)
    requires Truthy(m.current) && TypeOf(m.current.value) == TypeOf(task)
    ensures Updated(m, task, now) == m.(lastSeen := Some(now))
  {
  }

  /** Reset does not trim: with a current task the history grows by one. */
  lemma ResetDoesNotTrim(m: Memory, end: nat, now: nat)
    ensures |Reset(m, end, now).history| == |m.history| + (if Truthy(m.current) then 1 else 0)
  {
  }

  /** History entries end in the order they were pushed. */
  predicate Chronological(h: seq<Entry>) {
    forall i, j :: 0 <= i < j < |h| ==> h[i].end <= h[j].end
  }

  predicate EndsBy(h: seq<Entry>, now: nat) {
    forall i :: 0 <= i < |h| ==> h[i].end <= now
  }

  lemma {:induction false} TailKeepsOrder(h: seq<Entry>, n: nat, now: nat)
    requires Chronological(h) && EndsBy(h, now)
    ensures Chronological(Tail(h, n)) && EndsBy(Tail(h, n), now)
  {
    var t := Tail(h, n);
    SuffixKeepsOrder(h, |h| - |t|, now);
  }

  lemma SuffixKeepsOrder(h: seq<Entry>, off: nat, now: nat)
    requires off <= |h| && Chronological(h) && EndsBy(h, now)
    ensures Chronological(h[off..]) && EndsBy(h[off..], now)
  {
    assert forall i :: 0 <= i < |h| - off ==> h[off..][i] == h[off + i];
  }

  /** With the clock moving forward, an update and a reset keep the history in
      chronological order. */
  lemma UpdateKeepsOrder(m: Memory, task: Task, now: nat)
    requires Chronological(m.history) && EndsBy(m.history, now)
    ensures Chronological(Updated(m, task, now).history) && EndsBy(Updated(m, task, now).history, now)
  {
    if Truthy(m.current) && Replaces(m, task) {
      var pushed := m.history + [Entry(m.current.value, m.taskStart, now)];
      assert Chronological(pushed) && EndsBy(pushed, now);
      TailKeepsOrder(pushed, MaxHistory, now);
    }
  }

  lemma ResetKeepsOrder(m: Memory, end: nat, now: nat)
    requires Chronological(m.history) && EndsBy(m.history, end) && end <= now
    ensures Chronological(Reset(m, end, now).history) && EndsBy(Reset(m, end, now).history, now)
  {
  }

  /** A missing or corrupt memory file reads as having no current task. */
  lemma LoadFallback()
    ensures Loaded(None).current.None? && Loaded(None).history == []
  {
  }
}
