# baseplate-celery, modelled in Dafny

`baseplate_celery` instruments Celery tasks for Baseplate. Each time a task
runs, `BaseplateTask.__call__` makes a new Baseplate request context. It then
runs the task body inside a server span named `celery.<short task name>`. The
task hooks (`on_success`, `on_failure`, and `on_timeout` on the request class)
each add one to the `celery_task` counter and then flush the metrics. The
counter is tagged with the short task name, `success`, and for timeouts
`timeout`. The `BaseplateCelery` application class binds a Baseplate object,
writes the broker and result-backend URLs (`db+<engine url>`) into Celery's
settings, and starts workers with the command line `worker <flags…>`.

The model has six modules:

- `Wrappers`: `Option` and `Result`, used for Python's `None` and for raised exceptions.
- `PyStr`: Python's `str.split` with a one-character separator, and `join`. It proves that each undoes the other.
- `Collaborators`: the code this package calls but does not define. That is Baseplate's context factory and server spans, a context's metrics client, Celery's base-class hooks, and worker start-up. Each effect they have is recorded as an `Event` appended to an `EventLog` object, which the methods take as a parameter. Making a span object records nothing; entering and leaving it do. The `counter(...).increment()` chain is recorded as one increment event. Contexts are objects, so "a new context" is Dafny's `fresh`.
- `CeleryMetrics`: `short_task_name` and `emit_celery_metric`.
- `Workers`: the `BaseplateCelery` class (`set_baseplate`, `run_workers`), plus the `db+` backend URL, the worker command line and the prefix check of `parse_celery_configs`.
- `Interceptor`: `BaseplateTask` and `BaseplateRequest`. Pure functions give the exact event sequence of each operation. Lemmas count the span and metric events those sequences add to any log.

Every task body is represented by its `Outcome`: `Return(v)` or `Raise(e)`.
Reading an attribute of `None` is modelled as the exception it raises in
Python (`AttributeErrorOnNone`), not as a precondition. This applies to `_context` before
any call, and to `_baseplate` before `set_baseplate`. In both cases the exception
comes before any event, except in `on_timeout`: there the base hook has
already run when the metric step raises.

The code does not emit exactly one metric per task run. Each hook emits one
metric per call. If Celery calls `on_timeout` and then `on_failure` for the
same run, that run's context gets two increments
(`Interceptor.TimeoutThenFailureEmitsTwice`). The model follows the code.

## Model

| member | source | states |
|---|---|---|
| PyStr.Split | baseplate_celery/__init__.py:43 | `str.split` with one separator: the number of pieces is one more than the number of separators, no piece contains the separator, and a string without the separator splits into itself |
| PyStr.JoinSplit | baseplate_celery/__init__.py:122 | joining the pieces of a split with the separator gives back the original string, so no character and no empty piece is lost |
| PyStr.SplitJoin | baseplate_celery/__init__.py:122 | splitting the join of at least one separator-free piece gives back exactly those pieces |
| PyStr.SplitAfterSeparator | baseplate_celery/__init__.py:122 | a separator-free prefix followed by the separator becomes the first piece of the split |
| PyStr.JoinLast | baseplate_celery/__init__.py:43 | when there are at least two pieces, a join ends with a separator followed by the last piece |
| PyStr.FinalPiece | baseplate_celery/__init__.py:43 | `split(sep)[-1]` is a separator-free suffix of the string, and it is either the whole string or preceded by the separator |
| CeleryMetrics.ShortTaskName | baseplate_celery/__init__.py:42-43 | the short name has no `.`, is a suffix of the task name, and is either the whole name or preceded by a `.`; a name without `.` is returned unchanged |
| CeleryMetrics.ShortTaskNameIsTextAfterLastDot | baseplate_celery/__init__.py:42-43 | any dot-free suffix that is the whole name or follows a `.` is the short name, so the short name is exactly the text after the last `.` |
| CeleryMetrics.ShortTaskNameIdempotent | baseplate_celery/__init__.py:42-43 | shortening a short name again changes nothing |
| CeleryMetrics.ShortTaskNameExamples | baseplate_celery/__init__.py:42-43 | `app.tasks.send_email` and `send_email` both shorten to `send_email` |
| CeleryMetrics.MetricTags | baseplate_celery/__init__.py:47 | the dict expression `{"task_name": short, **tags}`: the keys are the caller's keys plus `task_name`, every caller key keeps its value (a later key wins, as in Python's dict merge), and otherwise `task_name` is the short task name. Through `emit_celery_metric` no clash reaches it, because argument binding rejects a `task_name` keyword |
| CeleryMetrics.EmissionCountsOnce | baseplate_celery/__init__.py:46-49 | one emission adds exactly one `celery_task` increment and exactly one flush for the context; the increment comes first and carries the merged tags |
| CeleryMetrics.EmitCeleryMetric | baseplate_celery/__init__.py:46-49 | a keyword repeating `context` or `task_name` raises a `TypeError` at argument binding and the log is unchanged. Otherwise, with a context, the log gains an increment followed by a flush; with `None`, the lookup of `.metrics` raises and the log is unchanged |
| Collaborators.ErrorOf | baseplate_celery/__init__.py:73-76 | the span's exit is given an exception exactly when the body raised, and it is that exception |
| Collaborators.Baseplate.MakeContextObject | baseplate_celery/__init__.py:72 | each call returns a new context and records that it was made |
| Collaborators.Baseplate.MakeServerSpan | baseplate_celery/__init__.py:73-74 | a new span for the given context and name, not yet entered |
| Collaborators.ServerSpan.Enter | baseplate_celery/__init__.py:73-75 | entering the `with` block opens the span once; it can be entered only from the created state |
| Collaborators.ServerSpan.Exit | baseplate_celery/__init__.py:73-76 | leaving the `with` block closes the span once, with the exception leaving it; it can be exited only after being entered |
| Workers.ConfigSection | baseplate_celery/__init__.py:30-38 | succeeds exactly when the prefix ends in `.`, and the section plus `.` is the prefix; otherwise it raises `AssertionError` |
| Workers.DefaultSection | baseplate_celery/__init__.py:15 | the default prefix `celery.` selects the `celery` section |
| Workers.BackendUrl | baseplate_celery/__init__.py:100 | the backend URL is `db+` followed by the engine URL, unchanged |
| Workers.WorkerCommand | baseplate_celery/__init__.py:119-123 | the command always starts with `worker`. With no command or an empty one it is just `["worker"]`. Otherwise there is one more flag than there are spaces, no flag contains a space, and the flags joined by spaces give back the command |
| Workers.WorkerFlagsAreSplit | baseplate_celery/__init__.py:121-123 | for a non-empty command, the flags after `worker` are exactly `command.split(" ")`, in order |
| Workers.WorkerCommandKeepsEmptyFlags | baseplate_celery/__init__.py:122 | a double space between two flags becomes an empty flag between them |
| Workers.BaseplateCelery.constructor | baseplate_celery/__init__.py:88-92 | a new application has no Baseplate object and no parsed options; its broker and backend settings are whatever the arguments passed on to Celery give |
| Workers.BaseplateCelery.SetBaseplate | baseplate_celery/__init__.py:94-104 | the Baseplate object is stored first. The parsed options are stored next. Celery's broker URL and its `db+` backend URL are written only when both outside steps succeed. A failure in either step propagates and keeps what was already assigned |
| Workers.BaseplateCelery.RunWorkers | baseplate_celery/__init__.py:106-129 | a configuration error propagates before any recorded event. Otherwise the task package is registered and the worker is started with exactly `WorkerCommand(command)` |
| Interceptor.SpanName | baseplate_celery/__init__.py:74 | the span name is `celery.` followed by exactly the short task name, which `ShortTaskName` and `ShortTaskNameIsTextAfterLastDot` characterise as the text after the last `.` |
| Interceptor.CallSpanNestsBody | baseplate_celery/__init__.py:70-76 | if the new context appears nowhere earlier in the log, one call opens exactly one span on it, runs the body exactly once and closes exactly one span, in that order. It emits no metric. The close carries the body's exception exactly when the body raised |
| Interceptor.SuccessHookEmitsOnce | baseplate_celery/__init__.py:82-84 | `on_success` adds exactly one increment, tagged only with the short task name and `success=True` (no `timeout` tag). One flush follows, then the base hook with the same arguments |
| Interceptor.FailureHookEmitsOnce | baseplate_celery/__init__.py:78-80 | `on_failure` adds exactly one increment, tagged only with the short task name and `success=False` (no `timeout` tag). One flush follows, then the base hook with the same arguments |
| Interceptor.TimeoutHookEmitsOnce | baseplate_celery/__init__.py:53-57 | `on_timeout` calls the base hook first. It then adds exactly one increment, tagged with the short task name, `success=False` and `timeout=True`, followed by one flush |
| Interceptor.SuccessMetricTags | baseplate_celery/__init__.py:83 | the success metric's tags are exactly the short task name and `success=True` |
| Interceptor.FailureMetricTags | baseplate_celery/__init__.py:79 | the failure metric's tags are exactly the short task name and `success=False` |
| Interceptor.TimeoutMetricTags | baseplate_celery/__init__.py:55-57 | the timeout metric's tags are exactly the short task name, `success=False` and `timeout=True` |
| Interceptor.TimeoutThenFailureEmitsTwice | baseplate_celery/__init__.py:53-80 | if both the timeout hook and the failure hook run for one context, that context gets two increments |
| Interceptor.BaseplateTask.constructor | baseplate_celery/__init__.py:68 | `_context` starts as `None` |
| Interceptor.BaseplateTask.Call | baseplate_celery/__init__.py:70-76 | with no Baseplate object bound, the call raises and nothing changes. Otherwise `_context` becomes a new context that no earlier event mentions. The log gains exactly the call's events, and the body's value or exception is passed through unchanged |
| Interceptor.BaseplateTask.OnFailure | baseplate_celery/__init__.py:78-80 | emits the failure metric on `_context`, then calls the base hook and returns its `None`. With `_context` `None` it raises before either step |
| Interceptor.BaseplateTask.OnSuccess | baseplate_celery/__init__.py:82-84 | emits the success metric on `_context`, then calls the base hook and returns its `None`. With `_context` `None` it raises before either step |
| Interceptor.BaseplateRequest.constructor | baseplate_celery/__init__.py:52 | a request belongs to its task |
| Interceptor.BaseplateRequest.OnTimeout | baseplate_celery/__init__.py:53-57 | calls the base hook, then emits the timeout metric on the task's `_context`. With that context `None`, the metric step raises after the base hook has run |
| Interceptor.TwoRuns | baseplate_celery/__init__.py:70-76 | two runs of one task get different contexts, and each run's span is closed exactly once in the final log |

## Left out

- `parse_celery_configs` beyond its prefix check (`ConfigSection` models the assertion as raising; under `python -O` the assertion is stripped, and a prefix without the final `.` would silently lose its last character), and `config.parse_config` in `run_workers`: Baseplate's `SpecParser` is not part of this model. Its results are parameters of `SetBaseplate` and `RunWorkers`, as a `Result` so that its errors are still modelled.
- The secrets store (fetched with a 60-second timeout), the SQLAlchemy session and engine: foreign I/O. The engine URL is a parameter of `SetBaseplate`, also as a `Result`.
- Celery settings other than `broker_url` and `result_backend`: `conf.update` only writes those two.
- `patch_psycopg`, the log line, and the behaviour of `autodiscover_tasks` and `start`: process start-up and I/O. Only the calls and their arguments are recorded.
- The Sentry alert in `on_timeout`: a foreign call. As written, it reads `_context` from the request rather than the task, and its message is not an f-string, so the task name and timeout are not filled in. The model stops after the metric, and its normal return after the metric is an assumption of the model: the alert line as written would itself look up `_context` on the request.
- The behaviour of Celery's base-class hooks and of its dispatch: when and how often Celery calls `__call__`, `on_success`, `on_failure` and `on_timeout`. The base hooks are recorded as events and return `None`. Each hook's emission count is proved per hook call, not per task run.
- `acks_late` and `track_started`: Celery settings with no behaviour in this package.
- Failures inside the metrics client, the tracing backend or the context factory: they belong to Baseplate.
- Concurrency (the gevent pool, timeouts delivered asynchronously): the model is sequential, and a timeout is a separate call to `OnTimeout`. Celery registers one instance of each task. So under the gevent pool, concurrent runs of one task overwrite its single `_context` field, and a later hook can then emit on another run's context. `TwoRuns` shows distinct contexts only for runs one after the other.
- Python values passed through the hooks and the body are opaque `Value`s.
