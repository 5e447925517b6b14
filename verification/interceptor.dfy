/**
 * The per-invocation instrumentation: `BaseplateTask.__call__` wraps each
 * run of a task in a fresh context and a server span, and the success,
 * failure and timeout hooks each emit one `celery_task` metric.
 */
module Interceptor {
  import opened Wrappers
  import opened Collaborators
  import opened CeleryMetrics
  import opened Workers

  /** The prefix of every task span name. */
  const SpanPrefix := "celery."

  /**
   * The server span name of a task: `celery.` followed by its short name,
   * the text after the last `.` (see `ShortTaskName`).
   */
  function SpanName(taskName: string): (r: string)
    ensures |SpanPrefix| <= |r| <= |SpanPrefix| + |taskName|
    ensures r[..|SpanPrefix|] == SpanPrefix
    ensures r[|SpanPrefix|..] == ShortTaskName(taskName)
  {
    var short := ShortTaskName(taskName);
    assert (SpanPrefix + short)[|SpanPrefix|..] == short;
    SpanPrefix + short
  }

  /** The tags each hook passes on top of the task name. */
  const SuccessTags: Tags := map["success" := Flag(true)]
  const FailureTags: Tags := map["success" := Flag(false)]
  const TimeoutTags: Tags := map["success" := Flag(false), "timeout" := Flag(true)]

  /**
   * What one `__call__` asks of the collaborators once a Baseplate object is
   * bound: a new context, the span entered, the task body run with the
   * call's arguments, the span exited with the body's exception if it raised.
   */
  function CallEvents(ctx: Context, taskName: string, args: seq<Value>,
                      kwargs: map<string, Value>, body: Outcome): seq<Event>
  {
    [ContextMade(ctx), SpanOpened(ctx, SpanName(taskName)), TaskRan(ctx, args, kwargs),
     SpanClosed(ctx, ErrorOf(body))]
  }

  function OpensSpanOn(ctx: Context): Event -> bool
  {
    (e: Event) => e.SpanOpened? && e.ctx == ctx
  }

  function ClosesSpanOn(ctx: Context): Event -> bool
  {
    (e: Event) => e.SpanClosed? && e.ctx == ctx
  }

  function RunsOn(ctx: Context): Event -> bool
  {
    (e: Event) => e.TaskRan? && e.ctx == ctx
  }

  /**
   * In a log where the new context did not appear before, a call leaves
   * exactly one span opened and exactly one closed on it, the body run once
   * strictly between the two, and no metric on it; the close carries the
   * body's exception exactly when the body raised.
   */
  lemma {:induction false} CallSpanNestsBody(before: seq<Event>, ctx: Context, taskName: string,
                                             args: seq<Value>, kwargs: map<string, Value>, body: Outcome)
    requires forall i :: 0 <= i < |before| ==> !Mentions(before[i], ctx)
    ensures var after := before + CallEvents(ctx, taskName, args, kwargs, body);
      var k := |before|;
      CountIf(after, OpensSpanOn(ctx)) == 1 &&
      CountIf(after, RunsOn(ctx)) == 1 &&
      CountIf(after, ClosesSpanOn(ctx)) == 1 &&
      CountIf(after, IncrementsOn(ctx)) == 0 &&
      after[k + 1] == SpanOpened(ctx, SpanName(taskName)) &&
      after[k + 2] == TaskRan(ctx, args, kwargs) &&
      after[k + 3].SpanClosed? && after[k + 3].ctx == ctx &&
      (after[k + 3].error.Some? <==> body.Raise?) &&
      (body.Raise? ==> after[k + 3].error.value == body.error)
  {
    var c := CallEvents(ctx, taskName, args, kwargs, body);
    CallCounts(before, ctx, c);
    assert (before + c)[|before|..] == c;
  }

  /** The four counts of `CallSpanNestsBody`, for any four events shaped like a call's. */
  lemma CallCounts(before: seq<Event>, ctx: Context, c: seq<Event>)
    requires forall i :: 0 <= i < |before| ==> !Mentions(before[i], ctx)
    requires |c| == 4 && c[0].ContextMade? && c[1].SpanOpened? && c[2].TaskRan? && c[3].SpanClosed?
    requires c[0].ctx == ctx && c[1].ctx == ctx && c[2].ctx == ctx && c[3].ctx == ctx
    ensures CountIf(before + c, OpensSpanOn(ctx)) == 1
    ensures CountIf(before + c, RunsOn(ctx)) == 1
    ensures CountIf(before + c, ClosesSpanOn(ctx)) == 1
    ensures CountIf(before + c, IncrementsOn(ctx)) == 0
  {
    CallCount(before, c, OpensSpanOn(ctx));
    CallCount(before, c, RunsOn(ctx));
    CallCount(before, c, ClosesSpanOn(ctx));
    CallCount(before, c, IncrementsOn(ctx));
  }

  /** A predicate no earlier event meets is counted over the call's events alone. */
  lemma CallCount(before: seq<Event>, c: seq<Event>, p: Event -> bool)
    requires |c| == 4
    requires forall i :: 0 <= i < |before| ==> !p(before[i])
    ensures CountIf(before + c, p) ==
      (if p(c[0]) then 1 else 0) + (if p(c[1]) then 1 else 0) +
      (if p(c[2]) then 1 else 0) + (if p(c[3]) then 1 else 0)
  {
    CountIfNone(before, p);
    CountIfAppend(before, c, p);
    CountCallEvents(c, p);
  }

  /** Counting over the four events of a call, one by one. */
  lemma CountCallEvents(c: seq<Event>, p: Event -> bool)
    requires |c| == 4
    ensures CountIf(c, p) ==
      (if p(c[0]) then 1 else 0) + (if p(c[1]) then 1 else 0) +
      (if p(c[2]) then 1 else 0) + (if p(c[3]) then 1 else 0)
  {
    CountIfCons(c[3], [], p);
    CountIfCons(c[2], [c[3]], p);
    CountIfCons(c[1], c[2..], p);
    CountIfCons(c[0], c[1..], p);
    assert [c[2]] + [c[3]] == c[2..];
    assert [c[1]] + c[2..] == c[1..];
    assert [c[0]] + c[1..] == c;
  }

  /** What `on_success` asks of the collaborators: one success metric, then the base hook. */
  function SuccessHookEvents(ctx: Context, taskName: string, retval: Value, taskId: string,
                             args: seq<Value>, kwargs: map<string, Value>): seq<Event>
  {
    MetricEvents(ctx, taskName, SuccessTags) + [SuperHookCalled(TaskOnSuccess(retval, taskId, args, kwargs))]
  }

  /** What `on_failure` asks of the collaborators: one failure metric, then the base hook. */
  function FailureHookEvents(ctx: Context, taskName: string, exc: Exception, taskId: string,
                             args: seq<Value>, kwargs: map<string, Value>, einfo: Value): seq<Event>
  {
    MetricEvents(ctx, taskName, FailureTags) + [SuperHookCalled(TaskOnFailure(exc, taskId, args, kwargs, einfo))]
  }

  /**
   * What `on_timeout` asks of the collaborators: the base hook first, then a
   * timeout metric on the task's context, unless that context is None.
   */
  function TimeoutHookEvents(ctx: Context?, taskName: string, soft: bool, timeout: Value): seq<Event>
  {
    [SuperHookCalled(RequestOnTimeout(soft, timeout))] +
    (if ctx == null then [] else MetricEvents(ctx, taskName, TimeoutTags))
  }

  /**
   * `on_success` adds exactly one task-counter increment, tagged with the
   * short task name and `success=True` and without a `timeout` tag, then
   * one flush, then the base hook with the hook's own arguments.
   */
  lemma {:induction false} SuccessHookEmitsOnce(before: seq<Event>, ctx: Context, taskName: string,
                                                retval: Value, taskId: string,
                                                args: seq<Value>, kwargs: map<string, Value>)
    ensures var after := before + SuccessHookEvents(ctx, taskName, retval, taskId, args, kwargs);
      var k := |before|;
      CountIf(after, IncrementsOn(ctx)) == CountIf(before, IncrementsOn(ctx)) + 1 &&
      after[k].CounterIncremented? && after[k].ctx == ctx &&
      after[k].tags.Keys == {"task_name", "success"} &&
      after[k].tags["task_name"] == Text(ShortTaskName(taskName)) &&
      after[k].tags["success"] == Flag(true) &&
      after[k + 1] == MetricsFlushed(ctx) &&
      after[k + 2] == SuperHookCalled(TaskOnSuccess(retval, taskId, args, kwargs)) &&
      |after| == k + 3
  {
    var m := MetricEvents(ctx, taskName, SuccessTags);
    var h := [SuperHookCalled(TaskOnSuccess(retval, taskId, args, kwargs))];
    EmissionCountsOnce(before, ctx, taskName, SuccessTags);
    CountIfAppend(before + m, h, IncrementsOn(ctx));
    assert before + (m + h) == (before + m) + h;
    assert CountIf(h, IncrementsOn(ctx)) == 0;
    SuccessMetricTags(taskName);
  }

  /**
   * `on_failure` adds exactly one task-counter increment, tagged with the
   * short task name and `success=False` and without a `timeout` tag, then
   * one flush, then the base hook with the hook's own arguments.
   */
  lemma {:induction false} FailureHookEmitsOnce(before: seq<Event>, ctx: Context, taskName: string,
                                                exc: Exception, taskId: string, args: seq<Value>,
                                                kwargs: map<string, Value>, einfo: Value)
    ensures var after := before + FailureHookEvents(ctx, taskName, exc, taskId, args, kwargs, einfo);
      var k := |before|;
      CountIf(after, IncrementsOn(ctx)) == CountIf(before, IncrementsOn(ctx)) + 1 &&
      after[k].CounterIncremented? && after[k].ctx == ctx &&
      after[k].tags.Keys == {"task_name", "success"} &&
      after[k].tags["task_name"] == Text(ShortTaskName(taskName)) &&
      after[k].tags["success"] == Flag(false) &&
      after[k + 1] == MetricsFlushed(ctx) &&
      after[k + 2] == SuperHookCalled(TaskOnFailure(exc, taskId, args, kwargs, einfo)) &&
      |after| == k + 3
  {
    var m := MetricEvents(ctx, taskName, FailureTags);
    var h := [SuperHookCalled(TaskOnFailure(exc, taskId, args, kwargs, einfo))];
    EmissionCountsOnce(before, ctx, taskName, FailureTags);
    CountIfAppend(before + m, h, IncrementsOn(ctx));
    assert before + (m + h) == (before + m) + h;
    assert CountIf(h, IncrementsOn(ctx)) == 0;
    FailureMetricTags(taskName);
  }

  /**
   * `on_timeout` first calls the base hook, then adds exactly one
   * task-counter increment tagged with the short task name, `success=False`
   * and `timeout=True`, then one flush.
   */
  lemma {:induction false} TimeoutHookEmitsOnce(before: seq<Event>, ctx: Context, taskName: string,
                                                soft: bool, timeout: Value)
    ensures var after := before + TimeoutHookEvents(ctx, taskName, soft, timeout);
      var k := |before|;
      CountIf(after, IncrementsOn(ctx)) == CountIf(before, IncrementsOn(ctx)) + 1 &&
      after[k] == SuperHookCalled(RequestOnTimeout(soft, timeout)) &&
      after[k + 1].CounterIncremented? && after[k + 1].ctx == ctx &&
      after[k + 1].tags.Keys == {"task_name", "success", "timeout"} &&
      after[k + 1].tags["task_name"] == Text(ShortTaskName(taskName)) &&
      after[k + 1].tags["success"] == Flag(false) &&
      after[k + 1].tags["timeout"] == Flag(true) &&
      after[k + 2] == MetricsFlushed(ctx) &&
      |after| == k + 3
  {
    var h := [SuperHookCalled(RequestOnTimeout(soft, timeout))];
    var m := MetricEvents(ctx, taskName, TimeoutTags);
    assert TimeoutHookEvents(ctx, taskName, soft, timeout) == h + m;
    assert before + (h + m) == (before + h) + m;
    CountIfAppend(before, h, IncrementsOn(ctx));
    assert CountIf(h, IncrementsOn(ctx)) == 0;
    EmissionCountsOnce(before + h, ctx, taskName, TimeoutTags);
    assert ((before + h) + m)[|before|] == h[0];
    TimeoutMetricTags(taskName);
  }

  /** The tags of a success metric: exactly the short task name and `success=True`. */
  lemma SuccessMetricTags(taskName: string)
    ensures var t := MetricTags(taskName, SuccessTags);
      t.Keys == {"task_name", "success"} &&
      t["task_name"] == Text(ShortTaskName(taskName)) && t["success"] == Flag(true)
  {
    assert "task_name" != "success";
  }

  /** The tags of a failure metric: exactly the short task name and `success=False`. */
  lemma FailureMetricTags(taskName: string)
    ensures var t := MetricTags(taskName, FailureTags);
      t.Keys == {"task_name", "success"} &&
      t["task_name"] == Text(ShortTaskName(taskName)) && t["success"] == Flag(false)
  {
    assert "task_name" != "success";
  }

  /** The tags of a timeout metric: the short task name, `success=False` and `timeout=True`. */
  lemma TimeoutMetricTags(taskName: string)
    ensures var t := MetricTags(taskName, TimeoutTags);
      t.Keys == {"task_name", "success", "timeout"} &&
      t["task_name"] == Text(ShortTaskName(taskName)) &&
      t["success"] == Flag(false) && t["timeout"] == Flag(true)
  {
    assert "task_name" != "success" && "task_name" != "timeout";
  }

  /**
   * The hooks count per call, not per invocation: if Celery calls
   * `on_timeout` and then `on_failure` for the same run, the run's context
   * receives two task-counter increments.
   */
  lemma {:induction false} TimeoutThenFailureEmitsTwice(ctx: Context, taskName: string, soft: bool, timeout: Value,
                                                        exc: Exception, taskId: string, args: seq<Value>,
                                                        kwargs: map<string, Value>, einfo: Value)
    ensures CountIf(TimeoutHookEvents(ctx, taskName, soft, timeout) +
                    FailureHookEvents(ctx, taskName, exc, taskId, args, kwargs, einfo),
                    IncrementsOn(ctx)) == 2
  {
    TimeoutHookEmitsOnce([], ctx, taskName, soft, timeout);
    var t := TimeoutHookEvents(ctx, taskName, soft, timeout);
    assert [] + t == t;
    FailureHookEmitsOnce(t, ctx, taskName, exc, taskId, args, kwargs, einfo);
  }

  class BaseplateTask {
    const name: string
    const app: BaseplateCelery
    var context: Context?

    /** A task of `app` named `name`; `_context` starts as None. */
    constructor (name: string, app: BaseplateCelery)
      ensures this.name == name && this.app == app && context == null
    {
      this.name := name;
      this.app := app;
      context := null;
    }

    /**
     * `__call__(*args, **kwargs)`, the body's outcome given as `body`. With
     * no Baseplate object bound, `None.make_context_object` raises before
     * anything happens. Otherwise `_context` is replaced by a new context
     * that no earlier event mentions, the body runs inside the span, and its
     * value is returned or its exception re-raised unchanged.
     */
    method Call(log: EventLog, args: seq<Value>, kwargs: map<string, Value>, body: Outcome)
      returns (r: Outcome)
      modifies this, log
      ensures app.baseplate == null ==>
        r == Raise(AttributeErrorOnNone("make_context_object")) &&
        context == old(context) && log.events == old(log.events)
      ensures app.baseplate != null ==>
        context != null && fresh(context) && r == body &&
        log.events == old(log.events) + CallEvents(context, name, args, kwargs, body)
      ensures app.baseplate != null ==>
        forall i :: 0 <= i < |old(log.events)| ==> !Mentions(old(log.events)[i], context)
    {
      var baseplate := app.baseplate;
      if baseplate == null {
        return Raise(AttributeErrorOnNone("make_context_object"));
      }
      var ctx := baseplate.MakeContextObject(log);
      context := ctx;
      var span := baseplate.MakeServerSpan(ctx, SpanName(name));
      span.Enter(log);
      log.Append(TaskRan(ctx, args, kwargs));
      r := body;
      span.Exit(log, ErrorOf(r));
    }

    /** `on_failure`: one failure metric on `_context`, then the base hook. */
    method OnFailure(log: EventLog, exc: Exception, taskId: string, args: seq<Value>,
                     kwargs: map<string, Value>, einfo: Value)
      returns (r: Outcome)
      modifies log
      ensures context == null ==>
        r == Raise(AttributeErrorOnNone("metrics")) && log.events == old(log.events)
      ensures context != null ==>
        r == Return(PyNone) &&
        log.events == old(log.events) + FailureHookEvents(context, name, exc, taskId, args, kwargs, einfo)
    {
      var err := EmitCeleryMetric(log, context, name, FailureTags);
      if err.Some? {
        return Raise(err.value);
      }
      log.Append(SuperHookCalled(TaskOnFailure(exc, taskId, args, kwargs, einfo)));
      r := Return(PyNone);
    }

    /** `on_success`: one success metric on `_context`, then the base hook. */
    method OnSuccess(log: EventLog, retval: Value, taskId: string, args: seq<Value>,
                     kwargs: map<string, Value>)
      returns (r: Outcome)
      modifies log
      ensures context == null ==>
        r == Raise(AttributeErrorOnNone("metrics")) && log.events == old(log.events)
      ensures context != null ==>
        r == Return(PyNone) &&
        log.events == old(log.events) + SuccessHookEvents(context, name, retval, taskId, args, kwargs)
    {
      var err := EmitCeleryMetric(log, context, name, SuccessTags);
      if err.Some? {
        return Raise(err.value);
      }
      log.Append(SuperHookCalled(TaskOnSuccess(retval, taskId, args, kwargs)));
      r := Return(PyNone);
    }
  }

  class BaseplateRequest {
    const task: BaseplateTask

    constructor (task: BaseplateTask)
      ensures this.task == task
    {
      this.task := task;
    }

    /**
     * `on_timeout(soft, timeout)`: the base hook first, then one timeout
     * metric on the task's `_context`; with that context None the metric
     * raises after the base hook has run.
     */
    method OnTimeout(log: EventLog, soft: bool, timeout: Value) returns (r: Outcome)
      modifies log
      ensures log.events == old(log.events) + TimeoutHookEvents(task.context, task.name, soft, timeout)
      ensures r == if task.context == null then Raise(AttributeErrorOnNone("metrics")) else Return(PyNone)
    {
      log.Append(SuperHookCalled(RequestOnTimeout(soft, timeout)));
      var err := EmitCeleryMetric(log, task.context, task.name, TimeoutTags);
      if err.Some? {
        return Raise(err.value);
      }
      r := Return(PyNone);
    }
  }

  /**
   * Two runs of the same task see different contexts, and in the resulting
   * log each run's span is closed exactly once.
   */
  method TwoRuns(log: EventLog, task: BaseplateTask, first: Outcome, second: Outcome)
    returns (c1: Context, c2: Context)
    requires task.app.baseplate != null
    modifies task, log
    ensures c1 != c2
    ensures CountIf(log.events, ClosesSpanOn(c1)) == 1
    ensures CountIf(log.events, ClosesSpanOn(c2)) == 1
  {
    var start := log.events;
    var r1 := task.Call(log, [], map[], first);
    c1 := task.context;
    var mid := log.events;
    var r2 := task.Call(log, [], map[], second);
    c2 := task.context;
    var last := CallEvents(c2, task.name, [], map[], second);
    CallSpanNestsBody(start, c1, task.name, [], map[], first);
    CallSpanNestsBody(mid, c2, task.name, [], map[], second);
    CountIfAppend(mid, last, ClosesSpanOn(c1));
    CountCallEvents(last, ClosesSpanOn(c1));
  }
}
