/**
 * The task scheduler's timing and admission rules
 * (src/python/foglamp/core/scheduler.py) with time as integer seconds:
 * the first and next start of interval and startup schedules, the checks
 * of start_task, the scan of _check_schedules and the active task count.
 * Timed schedules, the storage tables and the subprocesses themselves are
 * left out; spawning a process is an oracle that answers whether it
 * started, and the uuid4 task ids are a counter.
 */
module Scheduler {
  import opened Common

  type ScheduleId = nat
  type TaskId = nat

  datatype ScheduleType = Startup | Timed | Interval | Manual

  /** A row of the schedules table; repeatSeconds is None for a NULL interval. */
  datatype ScheduleRow = ScheduleRow(name: string, kind: ScheduleType, repeatSeconds: Option<nat>, exclusive: bool, processName: string)

  /** _ScheduleExecution: the next start (None when there is none), the running tasks, and the start_now flag. */
  datatype Execution = Execution(nextStart: Option<int>, tasks: set<TaskId>, startNow: bool)

  const NewExecution := Execution(None, {}, false)

  /**
   * The exceptions the operations raise. TypeError stands for arithmetic or
   * a comparison with None, AttributeError for the call of a method a dict
   * does not have.
   */
  datatype SchedulerError =
    | PausedError
    | ScheduleNotFoundError(id: ScheduleId)
    | TaskQueuedError
    | TaskRunningError
    | IOError
    | TypeError
    | AttributeError
    | KeyError

  /** math.ceil(a / b) for b > 0. */
  function CeilDiv(a: int, b: nat): (r: int)
    requires b > 0
    ensures r * b >= a && (r - 1) * b < a
  {
    -((-a) / b)
  }

  /**
   * The number of intervals advance_seconds covers:
   * max(1, ceil((now - from) / r)), the fewest whole intervals (at least
   * one) that take from to now or beyond.
   */
  function Steps(r: nat, from: int, now: int): (k: int)
    requires r > 0
    ensures k >= 1 && from + k * r >= now
    ensures k == 1 || from + (k - 1) * r < now
  {
    var steps := CeilDiv(now - from, r);
    if steps > 1 then steps else 1
  }

  /** advance_seconds after its adjustment: a non-zero repeat covers Steps intervals; 0 stays 0. */
  function Advance(r: nat, from: int, now: int): (adv: int)
    ensures r == 0 ==> adv == 0
    ensures r > 0 ==> adv == Steps(r, from, now) * r && adv >= r && from + adv >= now
    ensures r > 0 ==> adv == r || from + adv - r < now
  {
    if r == 0 then 0 else Steps(r, from, now) * r
  }

  /**
   * _schedule_first_task's start time for a schedule that is not timed:
   * an interval schedule starts the adjusted interval after the current
   * time (a NULL interval raises), a startup schedule at the current time,
   * and a manual schedule keeps what it had.
   */
  function FirstStart(s: ScheduleRow, current: int, startTime: int, previous: Option<int>): (r: Result<Option<int>, SchedulerError>)
    requires s.kind != Timed
    ensures s.kind == Interval && s.repeatSeconds.None? ==> r == Err(TypeError)
    ensures s.kind == Interval && s.repeatSeconds == Some(0) ==> r == Ok(Some(current))
    ensures s.kind == Interval && s.repeatSeconds.Some? && s.repeatSeconds.value > 0 ==>
      var rep := s.repeatSeconds.value;
      r.Ok? && r.value.Some? && r.value.value - current == Steps(rep, startTime, current) * rep &&
      r.value.value - current >= rep && r.value.value - current >= current - startTime
    ensures s.kind == Startup ==> r == Ok(Some(current))
    ensures s.kind == Manual ==> r == Ok(previous)
    ensures r.Err? <==> s.kind == Interval && s.repeatSeconds.None?
  {
    match s.kind
    case Interval =>
      if s.repeatSeconds.None? then Err(TypeError)
      else Ok(Some(current + Advance(s.repeatSeconds.value, startTime, current)))
    case Startup => Ok(Some(current))
    case Manual => Ok(previous)
  }

  /**
   * _schedule_first_task as written: it ends by logging the next start
   * through datetime.fromtimestamp, which raises TypeError for None, so a
   * manual schedule without a next start fails there.
   */
  function FirstStartAsWritten(s: ScheduleRow, current: int, startTime: int, previous: Option<int>): (r: Result<Option<int>, SchedulerError>)
    requires s.kind != Timed
    ensures r.Ok? ==> r.value.Some? && r == FirstStart(s, current, startTime, previous)
    ensures r.Err? <==> FirstStart(s, current, startTime, previous).Err? || FirstStart(s, current, startTime, previous) == Ok(None)
    ensures s.kind == Manual && previous.None? ==> r == Err(TypeError)
  {
    match FirstStart(s, current, startTime, previous)
    case Err(e) => Err(e)
    case Ok(next) => if next.None? then Err(TypeError) else Ok(next)
  }

  /**
   * A manual schedule with no next start: the code as written raises on
   * the log line, where the first-start rule keeps the schedule unscheduled.
   */
  lemma ManualWithoutStartRaises(s: ScheduleRow, current: int, startTime: int)
    requires s.kind == Manual
    ensures FirstStartAsWritten(s, current, startTime, None) == Err(TypeError)
    ensures FirstStart(s, current, startTime, None) == Ok(None)
  {
  }

  /**
   * _schedule_next_task for a schedule that is not timed: (whether a next
   * start was computed, the new next start). Paused or without an interval
   * the next start becomes None; an exclusive schedule started by hand
   * before its time keeps it; otherwise a non-zero interval moves the next
   * start forward by the adjusted interval.
   */
  function ScheduleNext(paused: bool, s: ScheduleRow, next: Option<int>, now: int): (r: Result<(bool, Option<int>), SchedulerError>)
    requires s.kind != Timed
    ensures paused || s.repeatSeconds.None? ==> r == Ok((false, None))
    ensures !paused && s.repeatSeconds.Some? && s.exclusive && next.Some? && now < next.value ==> r == Ok((false, next))
    ensures r.Ok? && r.value.0 ==> !paused && s.repeatSeconds.Some?
    ensures r.Ok? && r.value.0 && s.repeatSeconds.value == 0 ==> r.value.1 == next
    ensures r.Ok? && r.value.0 && s.repeatSeconds.value > 0 ==>
      var rep := s.repeatSeconds.value;
      next.Some? && r.value.1.Some? && r.value.1.value > next.value && r.value.1.value >= now &&
      r.value.1.value - next.value == Steps(rep, next.value, now) * rep &&
      (r.value.1.value - rep == next.value || r.value.1.value - rep < now)
    ensures r.Err? <==> !paused && s.repeatSeconds.Some? && next.None? && (s.exclusive || s.repeatSeconds.value != 0)
  {
    if paused || s.repeatSeconds.None? then Ok((false, None))
    else if s.exclusive && next.None? then Err(TypeError)
    else if s.exclusive && now < next.value then Ok((false, next))
    else if s.repeatSeconds.value == 0 then Ok((true, next))
    else if next.None? then Err(TypeError)
    else Ok((true, Some(next.value + Advance(s.repeatSeconds.value, next.value, now))))
  }

  /** The earlier of a running minimum and a candidate. */
  function Earlier(earliest: Option<int>, candidate: Option<int>): (r: Option<int>)
    ensures candidate.None? ==> r == earliest
    ensures candidate.Some? && earliest.None? ==> r == candidate
    ensures candidate.Some? && earliest.Some? ==>
      r.Some? && r.value <= earliest.value && r.value <= candidate.value &&
      (r.value == earliest.value || r.value == candidate.value)
  {
    if candidate.Some? && (earliest.None? || earliest.value > candidate.value) then candidate else earliest
  }

  /** The least element of a non-empty sequence. */
  ghost predicate IsLeast(x: int, xs: seq<int>)
  {
    x in xs && forall y :: y in xs ==> x <= y
  }

  /** A schedule the scan passes over: exclusive, with tasks running. */
  predicate Busy(s: ScheduleRow, e: Execution)
  {
    s.exclusive && e.tasks != {}
  }

  /** The execution of key is the same, or as absent, after as before. */
  ghost predicate Unchanged(before: map<ScheduleId, Execution>, after: map<ScheduleId, Execution>, key: ScheduleId)
  {
    (key in after <==> key in before) && (key in after ==> after[key] == before[key])
  }

  /**
   * How the scan leaves a known schedule's execution: a busy one as it
   * was, any other without a queued start (or removed).
   */
  ghost predicate Scanned(before: map<ScheduleId, Execution>, after: map<ScheduleId, Execution>,
                          schedules: map<ScheduleId, ScheduleRow>, key: ScheduleId)
  {
    key in before && key in schedules ==>
      (Busy(schedules[key], before[key]) ==> key in after && after[key] == before[key]) &&
      (!Busy(schedules[key], before[key]) && key in after ==> !after[key].startNow)
  }

  /** A key the scan starts a task for: known, not busy, with a next start that is due or a start queued. */
  predicate Due(schedules: map<ScheduleId, ScheduleRow>, executions: map<ScheduleId, Execution>, key: ScheduleId, now: int)
  {
    key in executions && key in schedules && !Busy(schedules[key], executions[key]) &&
    executions[key].nextStart.Some? && (now >= executions[key].nextStart.value || executions[key].startNow)
  }

  /**
   * What the scan does for one key beyond its next start, with the task
   * counter and the active task count before and after: a key that is not
   * due is left alone; a due key takes a task id and loses its queued
   * start; a spawn that succeeds adds the task to the execution and to the
   * active count, one that fails leaves the count and drops an execution
   * with no tasks left. A due start at its time moves the next start as
   * _schedule_next_task does when the schedule is not exclusive.
   */
  ghost predicate StartEffect(schedules: map<ScheduleId, ScheduleRow>, before: map<ScheduleId, Execution>,
                              after: map<ScheduleId, Execution>, key: ScheduleId, now: int, spawned: bool,
                              started0: nat, started1: nat, active0: nat, active1: nat)
    requires forall k :: k in schedules ==> schedules[k].kind != Timed
  {
    (!Due(schedules, before, key, now) ==> after == before && started1 == started0 && active1 == active0) &&
    (Due(schedules, before, key, now) ==>
      started1 == started0 + 1 &&
      (spawned ==>
        active1 == active0 + 1 && key in after &&
        after[key].tasks == before[key].tasks + {started0} && !after[key].startNow) &&
      (!spawned ==>
        active1 == active0 &&
        (before[key].tasks == {} ==> key !in after) &&
        (before[key].tasks != {} ==> key in after && after[key].tasks == before[key].tasks && !after[key].startNow)) &&
      (key in after ==>
        after[key].nextStart ==
          if now >= before[key].nextStart.value && !schedules[key].exclusive
          then ScheduleNext(false, schedules[key], before[key].nextStart, now).value.1
          else before[key].nextStart))
  }

  /**
   * The next start _check_schedules keeps for one key, from the state the
   * key had before the scan: None for a skipped key, TypeError for a None
   * next start, the next start computed by _schedule_next_task after a due
   * non-exclusive run (None when it computes none), None after a due
   * exclusive run, and the next start as it is for a start queued by hand
   * or a schedule not yet due.
   */
  function KeptStart(schedules: map<ScheduleId, ScheduleRow>, executions: map<ScheduleId, Execution>, key: ScheduleId, now: int): Result<Option<int>, SchedulerError>
    requires forall k :: k in schedules ==> schedules[k].kind != Timed
  {
    if key !in executions || key !in schedules || Busy(schedules[key], executions[key]) then Ok(None)
    else if executions[key].nextStart.None? then Err(TypeError)
    else if now < executions[key].nextStart.value then Ok(executions[key].nextStart)
    else if schedules[key].exclusive then Ok(None)
    else
      match ScheduleNext(false, schedules[key], executions[key].nextStart, now)
      case Ok((computed, next)) => if computed then Ok(next) else Ok(None)
      case Err(e) => Err(e)
  }

  /**
   * The next starts the scan keeps over keys, in order; the first key that
   * raises ends the scan with its error.
   */
  function KeptStarts(schedules: map<ScheduleId, ScheduleRow>, executions: map<ScheduleId, Execution>, keys: seq<ScheduleId>, now: int): Result<seq<int>, SchedulerError>
    requires forall k :: k in schedules ==> schedules[k].kind != Timed
    decreases |keys|
  {
    if keys == [] then Ok([])
    else
      match KeptStarts(schedules, executions, keys[..|keys| - 1], now)
      case Err(e) => Err(e)
      case Ok(seen) =>
        match KeptStart(schedules, executions, keys[|keys| - 1], now)
        case Err(e) => Err(e)
        case Ok(t) => Ok(seen + if t.Some? then [t.value] else [])
  }

  /** One more key extends the scan by the next start that key keeps, or ends it with the key's error. */
  lemma KeptStartsStep(schedules: map<ScheduleId, ScheduleRow>, executions: map<ScheduleId, Execution>,
                       keys: seq<ScheduleId>, i: nat, now: int)
    requires forall k :: k in schedules ==> schedules[k].kind != Timed
    requires i < |keys| && KeptStarts(schedules, executions, keys[..i], now).Ok?
    ensures var seen := KeptStarts(schedules, executions, keys[..i], now).value;
      match KeptStart(schedules, executions, keys[i], now)
      case Err(e) => KeptStarts(schedules, executions, keys[..i + 1], now) == Err(e)
      case Ok(t) => KeptStarts(schedules, executions, keys[..i + 1], now) == Ok(seen + if t.Some? then [t.value] else [])
  {
    assert keys[..i + 1][..i] == keys[..i];
  }

  /** Once a prefix of the scan raises, the whole scan raises the same error. */
  lemma {:induction false} KeptStartsErrPrefix(schedules: map<ScheduleId, ScheduleRow>, executions: map<ScheduleId, Execution>,
                                              keys: seq<ScheduleId>, i: nat, now: int)
    requires forall k :: k in schedules ==> schedules[k].kind != Timed
    requires i <= |keys| && KeptStarts(schedules, executions, keys[..i], now).Err?
    ensures KeptStarts(schedules, executions, keys, now) == KeptStarts(schedules, executions, keys[..i], now)
    decreases |keys| - i
  {
    if i < |keys| {
      var front := keys[..|keys| - 1];
      assert front[..i] == keys[..i];
      KeptStartsErrPrefix(schedules, executions, front, i, now);
    } else {
      assert keys[..i] == keys;
    }
  }

  /** Checking keys[i] leaves every key after the first i + 1 as it was. */
  lemma UnchangedStep(start: map<ScheduleId, Execution>, mid: map<ScheduleId, Execution>, after: map<ScheduleId, Execution>,
                      keys: seq<ScheduleId>, i: nat)
    requires i < |keys|
    requires forall k :: k !in keys[..i] ==> Unchanged(start, mid, k)
    requires forall k :: k != keys[i] ==> Unchanged(mid, after, k)
    ensures forall k :: k !in keys[..i + 1] ==> Unchanged(start, after, k)
  {
    assert keys[..i + 1] == keys[..i] + [keys[i]];
    forall k | k !in keys[..i + 1]
      ensures Unchanged(start, after, k)
    {
      assert Unchanged(start, mid, k) && Unchanged(mid, after, k);
    }
  }

  /** Checking keys[i], a key not checked before, extends the scanned keys to the first i + 1. */
  lemma ScannedStep(start: map<ScheduleId, Execution>, mid: map<ScheduleId, Execution>, after: map<ScheduleId, Execution>,
                    schedules: map<ScheduleId, ScheduleRow>, keys: seq<ScheduleId>, i: nat)
    requires i < |keys| && keys[i] !in keys[..i]
    requires forall k :: k !in keys[..i] ==> Unchanged(start, mid, k)
    requires forall k :: k in keys[..i] ==> Scanned(start, mid, schedules, k)
    requires forall k :: k != keys[i] ==> Unchanged(mid, after, k)
    requires Scanned(mid, after, schedules, keys[i])
    ensures forall k :: k in keys[..i + 1] ==> Scanned(start, after, schedules, k)
  {
    assert keys[..i + 1] == keys[..i] + [keys[i]];
    forall k | k in keys[..i + 1]
      ensures Scanned(start, after, schedules, k)
    {
      if k == keys[i] {
        assert Unchanged(start, mid, k);
      } else {
        assert Scanned(start, mid, schedules, k) && Unchanged(mid, after, k);
      }
    }
  }

  class Scheduler {
    var paused: bool
    /** _start_time, in seconds. */
    var startTime: int
    var schedules: map<ScheduleId, ScheduleRow>
    var executions: map<ScheduleId, Execution>
    var activeTaskCount: nat
    /** The number of task ids handed out; the next task gets this one. */
    var tasksStarted: nat

    /** Timed schedules are not part of this model. */
    ghost predicate Valid()
      reads this
    {
      forall k :: k in schedules ==> schedules[k].kind != Timed
    }

    constructor ()
      ensures Valid() && !paused && schedules == map[] && executions == map[] && activeTaskCount == 0 && tasksStarted == 0
    {
      paused := false;
      startTime := 0;
      schedules := map[];
      executions := map[];
      activeTaskCount := 0;
      tasksStarted := 0;
    }

    /**
     * start_task: PausedError when paused, ScheduleNotFoundError for an
     * unknown schedule, TaskQueuedError when a start is already queued,
     * TaskRunningError when the schedule is exclusive and has running tasks;
     * otherwise the schedule's execution (created if absent) is marked to
     * start now and nothing else changes.
     */
    method StartTask(id: ScheduleId) returns (err: Option<SchedulerError>)
      modifies this
      ensures paused == old(paused) && schedules == old(schedules) && activeTaskCount == old(activeTaskCount)
      ensures tasksStarted == old(tasksStarted) && startTime == old(startTime)
      ensures paused ==> err == Some(PausedError)
      ensures !paused && id !in schedules ==> err == Some(ScheduleNotFoundError(id))
      ensures !paused && id in schedules && id in old(executions) && old(executions)[id].startNow ==> err == Some(TaskQueuedError)
      ensures (!paused && id in schedules && id in old(executions) && !old(executions)[id].startNow &&
               Busy(schedules[id], old(executions)[id])) ==> err == Some(TaskRunningError)
      ensures err.Some? ==> executions == old(executions)
      ensures err.None? ==>
        var before := if id in old(executions) then old(executions)[id] else NewExecution;
        executions == old(executions)[id := before.(startNow := true)]
    {
      if paused {
        return Some(PausedError);
      }
      if id !in schedules {
        return Some(ScheduleNotFoundError(id));
      }
      var row := schedules[id];
      var execution: Option<Execution> := if id in executions then Some(executions[id]) else None;
      if execution.Some? && execution.value.startNow {
        return Some(TaskQueuedError);
      }
      if execution.Some? && Busy(row, execution.value) {
        return Some(TaskRunningError);
      }
      var e := if execution.None? then NewExecution else execution.value;
      executions := executions[id := e.(startNow := true)];
      err := None;
    }

    /** _schedule_first_task: the execution is created if absent, then its next start is set by FirstStart. */
    method ScheduleFirstTask(id: ScheduleId, current: int) returns (err: Option<SchedulerError>)
      requires Valid() && id in schedules
      modifies this
      ensures Valid() && paused == old(paused) && schedules == old(schedules) && activeTaskCount == old(activeTaskCount)
      ensures tasksStarted == old(tasksStarted) && startTime == old(startTime)
      ensures var before := if id in old(executions) then old(executions)[id] else NewExecution;
        var first := FirstStart(schedules[id], current, startTime, before.nextStart);
        (first.Ok? ==> err.None? && executions == old(executions)[id := before.(nextStart := first.value)]) &&
        (first.Err? ==> err == Some(first.error) && executions == old(executions)[id := before])
    {
      var e := if id in executions then executions[id] else NewExecution;
      executions := executions[id := e];
      var first := FirstStart(schedules[id], current, startTime, e.nextStart);
      if first.Err? {
        return Some(first.error);
      }
      executions := executions[id := e.(nextStart := first.value)];
      err := None;
    }

    /** _schedule_next_task: the execution's next start moves as ScheduleNext says. */
    method ScheduleNextTask(id: ScheduleId, now: int) returns (r: Result<bool, SchedulerError>)
      requires Valid() && id in schedules && id in executions
      modifies this
      ensures Valid() && paused == old(paused) && schedules == old(schedules) && activeTaskCount == old(activeTaskCount)
      ensures tasksStarted == old(tasksStarted) && startTime == old(startTime)
      ensures var next := ScheduleNext(paused, schedules[id], old(executions)[id].nextStart, now);
        (next.Ok? ==> r == Ok(next.value.0) && executions == old(executions)[id := old(executions)[id].(nextStart := next.value.1)]) &&
        (next.Err? ==> r == Err(next.error) && executions == old(executions))
    {
      var e := executions[id];
      var next := ScheduleNext(paused, schedules[id], e.nextStart, now);
      if next.Err? {
        return Err(next.error);
      }
      executions := executions[id := e.(nextStart := next.value.1)];
      r := Ok(next.value.0);
    }

    /**
     * _start_task: PausedError when paused; otherwise the active task count
     * goes up before the spawn and back down when the spawn fails (IOError);
     * a started task joins the schedule's running tasks.
     */
    method StartTaskProcess(id: ScheduleId, spawn: (string, TaskId) -> bool) returns (r: Result<TaskId, SchedulerError>)
      requires id in schedules && id in executions
      modifies this
      ensures paused == old(paused) && schedules == old(schedules) && startTime == old(startTime)
      ensures paused ==> r == Err(PausedError) && executions == old(executions) &&
                         activeTaskCount == old(activeTaskCount) && tasksStarted == old(tasksStarted)
      ensures !paused ==> tasksStarted == old(tasksStarted) + 1
      ensures !paused && !spawn(schedules[id].processName, old(tasksStarted)) ==>
        r == Err(IOError) && executions == old(executions) && activeTaskCount == old(activeTaskCount)
      ensures !paused && spawn(schedules[id].processName, old(tasksStarted)) ==>
        r == Ok(old(tasksStarted)) && activeTaskCount == old(activeTaskCount) + 1 &&
        executions == old(executions)[id := old(executions)[id].(tasks := old(executions)[id].tasks + {old(tasksStarted)})]
    {
      if paused {
        return Err(PausedError);
      }
      var task := tasksStarted;
      tasksStarted := tasksStarted + 1;
      activeTaskCount := activeTaskCount + 1;
      var started := spawn(schedules[id].processName, task);
      if !started {
        activeTaskCount := activeTaskCount - 1;
        return Err(IOError);
      }
      var e := executions[id];
      executions := executions[id := e.(tasks := e.tasks + {task})];
      r := Ok(task);
    }

    /**
     * _on_task_completion as written: the active task count drops unless it
     * is already 0, and then the condition's task_processes.len() call
     * raises AttributeError, since a dict has no len method; the finished
     * task is never removed from its schedule's running tasks.
     */
    method OnTaskCompletionAsWritten(id: ScheduleId, task: TaskId) returns (err: Option<SchedulerError>)
      modifies this
      ensures activeTaskCount == if old(activeTaskCount) > 0 then old(activeTaskCount) - 1 else 0
      ensures err == Some(if id in old(executions) then AttributeError else KeyError)
      ensures executions == old(executions) && paused == old(paused) && schedules == old(schedules)
      ensures id in executions && task in old(executions)[id].tasks ==> task in executions[id].tasks
    {
      if activeTaskCount > 0 {
        activeTaskCount := activeTaskCount - 1;
      }
      // self._schedule_executions[schedule.id] raises KeyError before the condition is evaluated.
      err := Some(if id in executions then AttributeError else KeyError);
    }

    /**
     * _on_task_completion with len(task_processes): the active task count
     * drops unless it is already 0; the execution is removed when this was
     * the last task while paused, or when the schedule does not repeat and
     * no start is queued; otherwise the task leaves the running tasks and an
     * exclusive schedule gets its next start.
     */
    method OnTaskCompletion(id: ScheduleId, task: TaskId, now: int) returns (err: Option<SchedulerError>)
      requires Valid() && id in schedules
      modifies this
      ensures Valid() && paused == old(paused) && schedules == old(schedules) && tasksStarted == old(tasksStarted)
      ensures activeTaskCount == if old(activeTaskCount) > 0 then old(activeTaskCount) - 1 else 0
      ensures id !in old(executions) ==> err == Some(KeyError) && executions == old(executions)
      ensures id in old(executions) ==>
        var e := old(executions)[id];
        (|e.tasks| == 1 && paused) || (schedules[id].repeatSeconds.None? && !e.startNow) ==>
          err.None? && executions == old(executions) - {id}
      ensures id in old(executions) ==>
        var e := old(executions)[id];
        !((|e.tasks| == 1 && paused) || (schedules[id].repeatSeconds.None? && !e.startNow)) ==>
          id in executions && executions[id].tasks == e.tasks - {task} && executions[id].startNow == e.startNow &&
          (!schedules[id].exclusive ==> err.None? && executions == old(executions)[id := e.(tasks := e.tasks - {task})]) &&
          (schedules[id].exclusive ==>
             var next := ScheduleNext(paused, schedules[id], e.nextStart, now);
             (next.Ok? ==> err.None? && executions[id].nextStart == next.value.1) &&
             (next.Err? ==> err == Some(next.error) && executions[id].nextStart == e.nextStart))
    {
      if activeTaskCount > 0 {
        activeTaskCount := activeTaskCount - 1;
      }
      if id !in executions {
        return Some(KeyError);
      }
      var e := executions[id];
      if (|e.tasks| == 1 && paused) || (schedules[id].repeatSeconds.None? && !e.startNow) {
        executions := executions - {id};
        return None;
      }
      executions := executions[id := e.(tasks := e.tasks - {task})];
      err := None;
      if schedules[id].exclusive {
        var next := ScheduleNextTask(id, now);
        if next.Err? {
          err := Some(next.error);
        }
      }
    }

    /**
     * One pass of _check_schedules' loop for one key, while not paused.
     * An unknown key, or an exclusive schedule with running tasks, is
     * skipped. Otherwise a task is started when the next start is due or
     * a start is queued (a None next start raises TypeError), start_now is
     * cleared, and the result is the next start the scan keeps for this key.
     */
    method CheckOne(key: ScheduleId, now: int, spawn: (string, TaskId) -> bool) returns (r: Result<Option<int>, SchedulerError>)
      requires Valid() && !paused
      modifies this
      ensures Valid() && paused == old(paused) && schedules == old(schedules)
      ensures forall k :: k != key ==> Unchanged(old(executions), executions, k)
      ensures key !in old(executions) || key !in schedules ==> r == Ok(None) && executions == old(executions)
      ensures key in old(executions) && key in schedules && Busy(schedules[key], old(executions)[key]) ==>
        r == Ok(None) && executions == old(executions)
      ensures (key in old(executions) && key in schedules && old(executions)[key].nextStart.None? &&
               !Busy(schedules[key], old(executions)[key])) ==>
        r == Err(TypeError) && executions == old(executions)
      ensures r.Ok? ==> Scanned(old(executions), executions, schedules, key)
      ensures r.Ok? && r.value.Some? && key in schedules && schedules[key].repeatSeconds != Some(0) ==> r.value.value >= now
      ensures r == KeptStart(schedules, old(executions), key, now)
      ensures startTime == old(startTime)
      ensures StartEffect(schedules, old(executions), executions, key, now,
                          key in schedules && spawn(schedules[key].processName, old(tasksStarted)),
                          old(tasksStarted), tasksStarted, old(activeTaskCount), activeTaskCount)
    {
      if key !in executions || key !in schedules {
        return Ok(None);
      }
      var e := executions[key];
      var schedule := schedules[key];
      if Busy(schedule, e) {
        return Ok(None);
      }
      if e.nextStart.None? {
        return Err(TypeError);
      }
      var nextStart := e.nextStart;
      var rightTime := now >= nextStart.value;
      if rightTime || e.startNow {
        executions := executions[key := e.(startNow := false)];
        // A start queued by hand leaves the next start as it is.
        if rightTime && !schedule.exclusive {
          // The next start is set, so a schedule that is not exclusive cannot raise here.
          var next := ScheduleNextTask(key, now);
          nextStart := if next.Ok? && next.value then executions[key].nextStart else None;
        } else if rightTime {
          nextStart := None;
        }
        var started := StartTaskProcess(key, spawn);
        if started.Err? && executions[key].tasks == {} {
          executions := executions - {key};
        }
      }
      r := Ok(nextStart);
    }

    /**
     * _check_schedules over the execution keys as listed: nothing while
     * paused; otherwise each key is checked in turn, an exception ends the
     * scan with that exception, and the result is the earliest of the next
     * starts kept (KeptStarts), None when none was kept.
     */
    method CheckSchedules(keys: seq<ScheduleId>, now: int, spawn: (string, TaskId) -> bool)
      returns (r: Result<Option<int>, SchedulerError>)
      requires Valid()
      requires forall i, j :: 0 <= i < j < |keys| ==> keys[i] != keys[j]
      modifies this
      ensures Valid() && paused == old(paused) && schedules == old(schedules)
      ensures old(paused) ==> r == Ok(None) && executions == old(executions)
      ensures !old(paused) ==>
        var kept := KeptStarts(schedules, old(executions), keys, now);
        (r.Err? <==> kept.Err?) && (r.Err? ==> r.error == kept.error) &&
        (r.Ok? ==> (r.value.None? <==> kept.value == []) && (r.value.Some? ==> IsLeast(r.value.value, kept.value)))
      ensures (forall k :: k in schedules ==> schedules[k].repeatSeconds != Some(0)) && r.Ok? && r.value.Some? ==> r.value.value >= now
      ensures forall k :: k !in keys ==> Unchanged(old(executions), executions, k)
      ensures r.Ok? && !paused ==> forall k :: k in keys ==> Scanned(old(executions), executions, schedules, k)
    {
      var earliest: Option<int> := None;
      ghost var seen: seq<int> := [];
      var i := 0;
      while i < |keys|
        invariant 0 <= i <= |keys|
        invariant Valid() && paused == old(paused) && schedules == old(schedules)
        invariant (earliest.None? <==> seen == []) && (earliest.Some? ==> IsLeast(earliest.value, seen))
        invariant !paused ==> KeptStarts(schedules, old(executions), keys[..i], now) == Ok(seen)
        invariant (forall k :: k in schedules ==> schedules[k].repeatSeconds != Some(0)) ==> forall t :: t in seen ==> t >= now
        invariant forall k :: k !in keys[..i] ==> Unchanged(old(executions), executions, k)
        invariant forall k :: k in keys[..i] ==> Scanned(old(executions), executions, schedules, k)
        invariant paused ==> i == 0 && seen == [] && earliest.None? && executions == old(executions)
      {
        if paused {
          return Ok(None);
        }
        var key := keys[i];
        assert key !in keys[..i];
        ghost var mid := executions;
        ghost var kept := KeptStart(schedules, old(executions), key, now);
        assert KeptStart(schedules, mid, key, now) == kept by {
          assert Unchanged(old(executions), mid, key);
        }
        KeptStartsStep(schedules, old(executions), keys, i, now);
        var one := CheckOne(key, now, spawn);
        UnchangedStep(old(executions), mid, executions, keys, i);
        if one.Err? {
          KeptStartsErrPrefix(schedules, old(executions), keys, i + 1, now);
          return Err(one.error);
        }
        ScannedStep(old(executions), mid, executions, schedules, keys, i);
        if one.value.Some? {
          seen := seen + [one.value.value];
        } else {
          assert seen + [] == seen;
        }
        earliest := Earlier(earliest, one.value);
        i := i + 1;
      }
      assert keys[..i] == keys;
      r := Ok(earliest);
    }
  }
}
