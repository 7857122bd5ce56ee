/** The cooperative scheduler of src/TaskQueue.js: a list of tasks kept in
    ascending order of due time, one-shot and self-rescheduling insertion,
    and the consumption loop that takes the earliest task, sleeps until it
    is due and hands its job to the caller. `Date.now()` is the explicit
    parameter `now`; the timer itself is not modelled. */
module TaskQueue {
  import opened Common
  import opened Ordering
  import Utils

  /** What a task runs: an action of the program (`A` names the closures
      the program schedules), or the closure `() => this.repeat(f, delay)`
      that `repeat` enqueues to reschedule `f`. */
  datatype Job<A> = Action(f: A) | Repeater(f: A, delay: int)

  datatype Task<A> = Task(time: int, job: Job<A>)

  function TimeOf<A>(t: Task<A>): int { t.time }

  /** The queue after `repeat(f, delay)` at time `now`: `f` and then its
      rescheduler, both due at `now + delay`, each inserted after every
      task due no later. */
  function Repeated<A>(s: seq<Task<A>>, f: A, delay: int, now: int): seq<Task<A>> {
    InsertBy(InsertBy(s, Task(now + delay, Action(f)), TimeOf), Task(now + delay, Repeater(f, delay)), TimeOf)
  }

  /** The queue after a turn has run `job` at time `wake` on the remaining
      tasks `rest`: an action leaves it alone, a rescheduler calls `repeat`
      with `wake` as its current time. */
  function AfterTurn<A>(rest: seq<Task<A>>, job: Job<A>, wake: int): seq<Task<A>> {
    match job
    case Action(_) => rest
    case Repeater(f, delay) => Repeated(rest, f, delay, wake)
  }

  /** The program action a turn runs, if its job is one. */
  function TurnRan<A>(job: Job<A>): Option<A> {
    if job.Action? then Some(job.f) else None
  }

  /** A turn of the loop as seen from outside: the queue it started from,
      whose head it took, the time it woke at, and the queue it left. */
  datatype TurnRecord<A> = TurnRecord(queue: seq<Task<A>>, wake: int, after: seq<Task<A>>)

  /** The record is one turn: it took the head of its queue no earlier
      than that head was due, and left what running the head's job leaves. */
  ghost predicate Turned<A>(t: TurnRecord<A>) {
    t.queue != [] && t.wake >= t.queue[0].time
    && t.after == AfterTurn(t.queue[1..], t.queue[0].job, t.wake)
  }

  /** The turns of `log`, in order, each started from the queue the
      previous one left, the first from `from`, the last leaving `to`. */
  ghost predicate Chained<A>(log: seq<TurnRecord<A>>, from: seq<Task<A>>, to: seq<Task<A>>)
    decreases |log|
  {
    if log == [] then from == to
    else Chained(log[..|log| - 1], from, log[|log| - 1].queue) && log[|log| - 1].after == to
  }

  /** The program actions the turns of `log` ran, in order. */
  function ActionsOf<A>(log: seq<TurnRecord<A>>): seq<A> {
    if log == [] then []
    else
      var t := log[|log| - 1];
      ActionsOf(log[..|log| - 1])
        + (if t.queue != [] && t.queue[0].job.Action? then [t.queue[0].job.f] else [])
  }

  /** One more turn extends the chain. */
  lemma ChainSnoc<A>(log: seq<TurnRecord<A>>, from: seq<Task<A>>, t: TurnRecord<A>)
    requires Chained(log, from, t.queue)
    requires forall i :: 0 <= i < |log| ==> Turned(log[i])
    requires Turned(t)
    ensures Chained(log + [t], from, t.after)
    ensures forall i :: 0 <= i < |log| + 1 ==> Turned((log + [t])[i])
  {
    assert (log + [t])[..|log|] == log;
  }

  /** `repeat` adds exactly its two tasks and loses none. */
  lemma RepeatedMultiset<A>(s: seq<Task<A>>, f: A, delay: int, now: int)
    ensures multiset(Repeated(s, f, delay, now))
         == multiset(s) + multiset{Task(now + delay, Action(f)), Task(now + delay, Repeater(f, delay))}
  {
    var a, r := Task(now + delay, Action(f)), Task(now + delay, Repeater(f, delay));
    var s1 := InsertBy(s, a, TimeOf);
    InsertByMultiset(s, a, TimeOf);
    InsertByMultiset(s1, r, TimeOf);
  }

  /** A rescheduler adds exactly the next run of its action and itself,
      both due `delay` after the moment it is taken, whatever time it was
      due at: a rescheduler due at `due` and taken later, at `wake`, does
      not add a run at `due + delay`, so the cadence drifts by the lateness. */
  lemma RescheduleDrifts<A>(rest: seq<Task<A>>, f: A, delay: int, due: int, wake: int)
    requires due < wake
    ensures var after := AfterTurn(rest, Repeater(f, delay), wake);
            && multiset(after) == multiset(rest) + multiset{Task(wake + delay, Action(f)), Task(wake + delay, Repeater(f, delay))}
            && multiset(after)[Task(due + delay, Action(f))] == multiset(rest)[Task(due + delay, Action(f))]
  {
    RepeatedMultiset(rest, f, delay, wake);
  }

  /** The next run a rescheduler queues is in the queue after its turn. */
  lemma RescheduleQueuesNext<A>(rest: seq<Task<A>>, f: A, delay: int, wake: int)
    ensures Task(wake + delay, Action(f)) in AfterTurn(rest, Repeater(f, delay), wake)
  {
    RepeatedMultiset(rest, f, delay, wake);
    assert Task(wake + delay, Action(f)) in multiset(Repeated(rest, f, delay, wake));
  }

  /** `repeat` keeps every queued task. */
  lemma RepeatedKeeps<A>(s: seq<Task<A>>, f: A, delay: int, now: int, x: Task<A>)
    requires x in s
    ensures x in Repeated(s, f, delay, now)
  {
    RepeatedMultiset(s, f, delay, now);
    assert x in multiset(s);
    assert x in multiset(Repeated(s, f, delay, now));
  }

  /** `repeat` splices its job and its rescheduler, side by side, in at
      the upper bound of their due time. */
  lemma RepeatedSplices<A>(s: seq<Task<A>>, f: A, delay: int, now: int)
    ensures var k := UpperBound(s, now + delay, TimeOf);
            Repeated(s, f, delay, now) == s[..k] + [Task(now + delay, Action(f)), Task(now + delay, Repeater(f, delay))] + s[k..]
  {
    InsertByTwice(s, Task(now + delay, Action(f)), Task(now + delay, Repeater(f, delay)), TimeOf);
  }

  /** A task lands at `k` when every task before `k` is due no later and
      the one at `k` is due later. */
  lemma InsertsAt<A>(s: seq<Task<A>>, x: Task<A>, k: nat)
    requires k <= |s|
    requires forall i :: 0 <= i < k ==> s[i].time <= x.time
    requires k < |s| ==> s[k].time > x.time
    ensures InsertBy(s, x, TimeOf) == s[..k] + [x] + s[k..]
  {
    UpperBoundUnique(s, x.time, TimeOf, k);
  }

  /** A task due before the head of the queue goes to the front. */
  lemma InsertsFront<A>(s: seq<Task<A>>, x: Task<A>)
    requires |s| > 0 ==> s[0].time > x.time
    ensures InsertBy(s, x, TimeOf) == [x] + s
  {
    InsertsAt(s, x, 0);
    assert s[..0] + [x] + s[0..] == [x] + s;
  }

  /** A task due no earlier than the head, and before the one after it,
      goes second. */
  lemma InsertsSecond<A>(h: Task<A>, s: seq<Task<A>>, x: Task<A>)
    requires h.time <= x.time
    requires |s| > 0 ==> s[0].time > x.time
    ensures InsertBy([h] + s, x, TimeOf) == [h, x] + s
  {
    var t := [h] + s;
    assert t[..1] == [h] && t[1..] == s;
    InsertsAt(t, x, 1);
  }

  /** A periodic job due before the head of the queue goes to the front,
      its first run ahead of its rescheduler. */
  lemma RepeatedInFront<A>(s: seq<Task<A>>, f: A, delay: int, now: int)
    requires |s| > 0 ==> s[0].time > now + delay
    ensures Repeated(s, f, delay, now) == [Task(now + delay, Action(f)), Task(now + delay, Repeater(f, delay))] + s
  {
    var a := Task(now + delay, Action(f));
    var r := Task(now + delay, Repeater(f, delay));
    InsertsFront(s, a);
    InsertsSecond(a, s, r);
  }

  /** lodash's `sortedLastIndexBy(tasks, task, t => t.time)`: a binary
      search for the position after the last task due no later than `time`. */
  method SortedLastIndex<A>(tasks: seq<Task<A>>, time: int) returns (idx: nat)
    requires SortedBy(tasks, TimeOf)
    ensures idx == UpperBound(tasks, time, TimeOf)
  {
    var low, high := 0, |tasks|;
    while low < high
      invariant 0 <= low <= high <= |tasks|
      invariant forall i :: 0 <= i < low ==> tasks[i].time <= time
      invariant forall i :: high <= i < |tasks| ==> tasks[i].time > time
      decreases high - low
    {
      var mid := (low + high) / 2;
      if tasks[mid].time <= time {
        low := mid + 1;
      } else {
        high := mid;
      }
    }
    idx := high;
    UpperBoundUnique(tasks, time, TimeOf, idx);
  }

  class TaskQueue<A> {
    var tasks: seq<Task<A>>
    /** The due times of the tasks the loop has taken, in the order taken. */
    ghost var fired: seq<int>

    /** The queue is sorted ascending by due time. */
    ghost predicate Valid()
      reads this
    {
      SortedBy(tasks, TimeOf)
    }

    /** Fire times never went back, and no queued task is due before the
        last one fired. */
    ghost predicate Monotone()
      reads this
    {
      (forall i, j :: 0 <= i < j < |fired| ==> fired[i] <= fired[j])
      && (fired != [] ==> forall i :: 0 <= i < |tasks| ==> tasks[i].time >= fired[|fired| - 1])
    }

    /** Every queued rescheduler reschedules with a non-negative delay. */
    ghost predicate DelaysNonNegative()
      reads this
    {
      forall i :: 0 <= i < |tasks| && tasks[i].job.Repeater? ==> tasks[i].job.delay >= 0
    }

    /** A lower bound some new task would not break: due no earlier than
        the last task fired. */
    ghost predicate NotBeforeFired(time: int)
      reads this
    {
      fired != [] ==> time >= fired[|fired| - 1]
    }

    constructor ()
      ensures Valid() && Monotone() && DelaysNonNegative()
      ensures tasks == [] && fired == []
    {
      tasks := [];
      fired := [];
    }

    /** `once(f, delay)`: insert a task due at `now + delay` after every
        task due no later (negative delays are not clamped). */
    method Once(job: Job<A>, delay: int, now: int)
      requires Valid()
      modifies this
      ensures Valid() && fired == old(fired)
      ensures tasks == InsertBy(old(tasks), Task(now + delay, job), TimeOf)
      ensures old(Monotone()) && NotBeforeFired(now + delay) ==> Monotone()
      ensures old(DelaysNonNegative()) && (job.Repeater? ==> job.delay >= 0) ==> DelaysNonNegative()
    {
      var task := Task(now + delay, job);
      var idx := SortedLastIndex(tasks, task.time);
      InsertBySorted(tasks, task, TimeOf);
      InsertByMultiset(tasks, task, TimeOf);
      tasks := tasks[..idx] + [task] + tasks[idx..];
      assert forall i :: 0 <= i < |tasks| ==> tasks[i] == task || tasks[i] in old(tasks) by {
        assert forall i :: 0 <= i < |tasks| ==> tasks[i] in multiset(old(tasks)) + multiset{task};
      }
    }

    /** `repeat(f, delay)`: two tasks due at `now + delay`, side by side:
        first `f`, then the rescheduler that repeats `f` from whatever time
        it runs at. */
    method Repeat(f: A, delay: int, now: int)
      requires Valid()
      modifies this
      ensures Valid() && fired == old(fired)
      ensures tasks == Repeated(old(tasks), f, delay, now)
      ensures var t := now + delay;
              var k := UpperBound(old(tasks), t, TimeOf);
              tasks == old(tasks)[..k] + [Task(t, Action(f)), Task(t, Repeater(f, delay))] + old(tasks)[k..]
      ensures old(Monotone()) && NotBeforeFired(now + delay) ==> Monotone()
      ensures old(DelaysNonNegative()) && delay >= 0 ==> DelaysNonNegative()
    {
      ghost var before := tasks;
      Once(Action(f), delay, now);
      Once(Repeater(f, delay), delay, now);
      RepeatedSplices(before, f, delay, now);
    }

    /** One turn of the async iterator: when the queue is empty the loop
        ends; otherwise the earliest task is taken off the front, the loop
        sleeps `max(time - now, 0)` and yields the task's job. */
    method Step(now: int) returns (next: Option<Job<A>>, sleep: int)
      requires Valid()
      modifies this
      ensures Valid() && sleep >= 0
      ensures old(tasks) == [] <==> next == None
      ensures old(tasks) == [] ==> tasks == old(tasks) && fired == old(fired) && sleep == 0
      ensures old(tasks) != [] ==>
        && next == Some(old(tasks)[0].job)
        && tasks == old(tasks)[1..]
        && fired == old(fired) + [old(tasks)[0].time]
        && sleep == Utils.Clamp(old(tasks)[0].time - now, 0)
        && now + sleep >= old(tasks)[0].time
        && (forall i :: 0 <= i < |old(tasks)| ==> old(tasks)[0].time <= old(tasks)[i].time)
      ensures old(Monotone()) ==> Monotone()
      ensures old(DelaysNonNegative()) ==> DelaysNonNegative()
    {
      if tasks == [] {
        next, sleep := None, 0;
      } else {
        var head := tasks[0];
        tasks := tasks[1..];
        fired := fired + [head.time];
        sleep := Utils.Clamp(head.time - now, 0);
        next := Some(head.job);
      }
    }
    /** One turn of `for await (const task of tasks) await task();` in
        src/main.js: `Step` takes the head and sleeps until it is due, and
        its job is invoked at the moment the sleep ends. The loop stops on
        an empty queue. */
    method Turn(now: int) returns (done: bool, ran: Option<A>, wake: int)
      requires Valid()
      modifies this
      ensures Valid()
      ensures done <==> old(tasks) == []
      ensures done ==> tasks == old(tasks) && fired == old(fired) && ran == None && wake == now
      ensures !done ==>
        var head := old(tasks)[0];
        && wake == now + Utils.Clamp(head.time - now, 0) && wake >= head.time
        && fired == old(fired) + [head.time]
        && ran == TurnRan(head.job)
        && tasks == AfterTurn(old(tasks)[1..], head.job, wake)
      ensures old(Monotone()) && old(DelaysNonNegative()) ==> Monotone() && DelaysNonNegative()
      ensures !done ==> NotBeforeFired(wake)
      ensures !done ==> Turned(TurnRecord(old(tasks), wake, tasks))
    {
      ghost var headOk := tasks != [] && tasks[0].job.Repeater? && DelaysNonNegative() ==> tasks[0].job.delay >= 0;
      var next, sleep := Step(now);
      wake := now + sleep;
      if next == None {
        done, ran := true, None;
        return;
      }
      done := false;
      assert headOk;
      ran := Invoke(next.value, wake);
    }

    /** The caller's `await task()` for a job taken at `wake`: an action is
        handed out to run; a rescheduler calls `repeat` at that moment. */
    method Invoke(job: Job<A>, wake: int) returns (ran: Option<A>)
      requires Valid()
      modifies this
      ensures Valid() && fired == old(fired)
      ensures ran == TurnRan(job)
      ensures tasks == AfterTurn(old(tasks), job, wake)
      ensures old(Monotone()) && NotBeforeFired(wake) && (job.Repeater? ==> job.delay >= 0) ==> Monotone()
      ensures old(DelaysNonNegative()) && (job.Repeater? ==> job.delay >= 0) ==> DelaysNonNegative()
    {
      match job {
        case Action(f) =>
          ran := Some(f);
        case Repeater(f, delay) =>
          Repeat(f, delay, wake);
          ran := None;
      }
    }
  }

  /** One more turn runs the action it took, if any. */
  lemma ActionsSnoc<A>(log: seq<TurnRecord<A>>, t: TurnRecord<A>, ran: seq<A>, job: Option<A>)
    requires ran == ActionsOf(log)
    requires t.queue != [] && job == TurnRan(t.queue[0].job)
    ensures ActionsOf(log + [t]) == if job.Some? then ran + [job.value] else ran
  {
    assert (log + [t])[..|log|] == log;
  }

  /** The loop `for await (const task of tasks) await task();` of src/main.js
      for at most `|durations|` turns: each job is invoked when the sleep
      ends; a rescheduler calls `repeat` at that moment, an action goes to
      `ran`, and each job keeps the clock busy for its duration. With a
      clock that only moves forward and non-negative delays, the due times
      of the tasks taken are non-decreasing, although jobs insert new tasks
      between turns. The ghost `log` records the turns: each took the head
      of the queue the previous one left, and `ran` holds the actions of
      those heads in turn order. */
  method RunLoop<A>(q: TaskQueue<A>, start: int, durations: seq<nat>)
    returns (ran: seq<A>, clock: int, taken: nat, ghost log: seq<TurnRecord<A>>)
    requires q.Valid() && q.Monotone() && q.DelaysNonNegative()
    requires q.NotBeforeFired(start)
    modifies q
    ensures q.Valid() && q.Monotone() && q.DelaysNonNegative()
    ensures clock >= start && q.NotBeforeFired(clock)
    ensures forall i, j :: 0 <= i < j < |q.fired| ==> q.fired[i] <= q.fired[j]
    ensures taken <= |durations| && |q.fired| == |old(q.fired)| + taken
    ensures taken < |durations| ==> q.tasks == []
    // the turns taken, each from the queue the previous one left
    ensures |log| == taken && Chained(log, old(q.tasks), q.tasks)
    ensures forall i :: 0 <= i < |log| ==> Turned(log[i])
    ensures ran == ActionsOf(log)
  {
    clock := start;
    ran := [];
    taken := 0;
    log := [];
    while taken < |durations|
      invariant 0 <= taken <= |durations|
      invariant q.Valid() && q.Monotone() && q.DelaysNonNegative()
      invariant clock >= start && q.NotBeforeFired(clock)
      invariant |q.fired| == |old(q.fired)| + taken
      invariant |log| == taken && Chained(log, old(q.tasks), q.tasks)
      invariant forall i :: 0 <= i < |log| ==> Turned(log[i])
      invariant ran == ActionsOf(log)
    {
      ghost var before := q.tasks;
      var done, job, wake := q.Turn(clock);
      if done {
        return;
      }
      ghost var t := TurnRecord(before, wake, q.tasks);
      ChainSnoc(log, old(q.tasks), t);
      ActionsSnoc(log, t, ran, job);
      if job.Some? {
        ran := ran + [job.value];
      }
      log := log + [t];
      clock := wake + durations[taken];
      taken := taken + 1;
    }
  }
}
