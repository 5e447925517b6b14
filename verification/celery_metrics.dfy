/**
 * Task-name shortening and the `celery_task` counter: `short_task_name` and
 * `emit_celery_metric`.
 */
module CeleryMetrics {
  import opened Wrappers
  import opened PyStr
  import opened Collaborators

  /**
   * `task_name.split(".")[-1]`: the text after the last `.` of the name, or
   * the whole name when it has no `.`.
   */
  function ShortTaskName(taskName: string): (r: string)
    ensures '.' !in r
    ensures |r| <= |taskName| && taskName[|taskName| - |r|..] == r
    ensures r == taskName || taskName[|taskName| - |r| - 1] == '.'
    ensures '.' !in taskName ==> r == taskName
  {
    FinalPiece(taskName, '.');
    var parts := Split(taskName, '.');
    parts[|parts| - 1]
  }

  /**
   * The three properties above determine the short name: any dot-free suffix
   * that is either the whole name or follows a `.` is the short name.
   */
  lemma ShortTaskNameIsTextAfterLastDot(taskName: string, r: string)
    requires '.' !in r
    requires |r| <= |taskName| && taskName[|taskName| - |r|..] == r
    requires r == taskName || taskName[|taskName| - |r| - 1] == '.'
    ensures ShortTaskName(taskName) == r
  {
    var n, s := |taskName|, ShortTaskName(taskName);
    assert |r| == |s|;
    assert taskName[n - |r|..] == taskName[n - |s|..];
  }

  /** Shortening an already short name changes nothing. */
  lemma ShortTaskNameIdempotent(taskName: string)
    ensures ShortTaskName(ShortTaskName(taskName)) == ShortTaskName(taskName)
  {
  }

  /** The two names the shortening is documented with. */
  lemma ShortTaskNameExamples()
    ensures ShortTaskName("app.tasks.send_email") == "send_email"
    ensures ShortTaskName("send_email") == "send_email"
  {
    var n := "app.tasks.send_email";
    assert n[|n| - 10..] == "send_email";
    assert n[|n| - 11] == '.';
    ShortTaskNameIsTextAfterLastDot(n, "send_email");
  }

  /** The tags of a `celery_task` counter: `{"task_name": short name, **tags}`. */
  function MetricTags(taskName: string, tags: Tags): (r: Tags)
    ensures r.Keys == tags.Keys + {"task_name"}
    ensures forall k :: k in tags ==> r[k] == tags[k]
    ensures "task_name" !in tags ==> r["task_name"] == Text(ShortTaskName(taskName))
  {
    map["task_name" := Text(ShortTaskName(taskName))] + tags
  }

  /** The name of the counter every task metric increments. */
  const CounterName := "celery_task"

  /** What `emit_celery_metric` asks of the context's metrics client: one increment, then one flush. */
  function MetricEvents(ctx: Context, taskName: string, tags: Tags): seq<Event>
  {
    [CounterIncremented(ctx, CounterName, MetricTags(taskName, tags)), MetricsFlushed(ctx)]
  }

  /** Whether an event increments the task counter of `ctx`. */
  function IncrementsOn(ctx: Context): Event -> bool
  {
    (e: Event) => e.CounterIncremented? && e.ctx == ctx && e.counter == CounterName
  }

  /** Whether an event flushes the metrics of `ctx`. */
  function FlushesOn(ctx: Context): Event -> bool
  {
    (e: Event) => e.MetricsFlushed? && e.ctx == ctx
  }

  /**
   * After an emission the log holds exactly one more increment of the task
   * counter and exactly one more flush for that context, the flush after the
   * increment, and the increment carries the merged tags.
   */
  lemma EmissionCountsOnce(before: seq<Event>, ctx: Context, taskName: string, tags: Tags)
    ensures var after := before + MetricEvents(ctx, taskName, tags);
      CountIf(after, IncrementsOn(ctx)) == CountIf(before, IncrementsOn(ctx)) + 1 &&
      CountIf(after, FlushesOn(ctx)) == CountIf(before, FlushesOn(ctx)) + 1 &&
      after[|before|].CounterIncremented? && after[|before|].tags == MetricTags(taskName, tags) &&
      after[|before| + 1] == MetricsFlushed(ctx)
  {
    var m := MetricEvents(ctx, taskName, tags);
    CountIfAppend(before, m, IncrementsOn(ctx));
    CountIfAppend(before, m, FlushesOn(ctx));
    assert m[1..] == [MetricsFlushed(ctx)];
  }

  /** The named parameters of `emit_celery_metric`, which no keyword in `**tags` may repeat. */
  predicate RepeatsParameter(tags: Tags)
  {
    "context" in tags || "task_name" in tags
  }

  /**
   * `emit_celery_metric(context, task_name, **tags)`. A keyword repeating
   * `context` or `task_name` is a `TypeError` when the arguments are bound,
   * so the merge of line 47 never sees a clash. With `context` None the
   * attribute lookup `context.metrics` raises before anything is emitted.
   */
  method EmitCeleryMetric(log: EventLog, context: Context?, taskName: string, tags: Tags)
    returns (err: Option<Exception>)
    modifies log
    ensures RepeatsParameter(tags) ==>
      err.Some? && err.value.MultipleValuesForArgument? &&
      err.value.argument in tags && err.value.argument in {"context", "task_name"} &&
      log.events == old(log.events)
    ensures !RepeatsParameter(tags) && context == null ==>
      err == Some(AttributeErrorOnNone("metrics")) && log.events == old(log.events)
    ensures !RepeatsParameter(tags) && context != null ==>
      err == None && log.events == old(log.events) + MetricEvents(context, taskName, tags)
  {
    if "context" in tags {
      return Some(MultipleValuesForArgument("context"));
    } else if "task_name" in tags {
      return Some(MultipleValuesForArgument("task_name"));
    }
    var merged := MetricTags(taskName, tags);
    if context == null {
      return Some(AttributeErrorOnNone("metrics"));
    }
    log.Append(CounterIncremented(context, CounterName, merged));
    log.Append(MetricsFlushed(context));
    err := None;
  }
}
