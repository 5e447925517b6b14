/**
 * The collaborators the instrumentation talks to (Baseplate's context
 * factory and server spans, the metrics client of a context, Celery's own
 * hooks and worker start-up) are not visible here. Each call into them is
 * recorded as one event appended to an `EventLog`; the order and contents of
 * that log are what the rest of the model makes statements about.
 */
module Collaborators {
  import opened Wrappers

  /** A Python value the instrumentation only passes along. */
  datatype Value = PyNone | PyValue(repr: string)

  /** A raised Python exception. */
  datatype Exception =
    | AttributeErrorOnNone(attribute: string)  // `None.<attribute>`
    | MultipleValuesForArgument(argument: string)  // a keyword argument repeating a named parameter
    | AssertionError
    | Raised(kind: string, message: string)    // raised by code outside the model

  /** How a piece of Python code ends: it returns a value or raises. */
  datatype Outcome = Return(value: Value) | Raise(error: Exception)

  /** The exception an outcome carries, as a context manager's `__exit__` sees it. */
  function ErrorOf(o: Outcome): (e: Option<Exception>)
    ensures e.Some? <==> o.Raise?
    ensures o.Raise? ==> e.value == o.error
  {
    match o
    case Return(_) => None
    case Raise(err) => Some(err)
  }

  /** A metric tag value: the task name is text, `success` and `timeout` are flags. */
  datatype TagValue = Text(text: string) | Flag(flag: bool)

  type Tags = map<string, TagValue>

  /** A call into the base classes' own hooks, with the arguments it was given. */
  datatype SuperHook =
    | TaskOnSuccess(retval: Value, taskId: string, args: seq<Value>, kwargs: map<string, Value>)
    | TaskOnFailure(exc: Exception, taskId: string, args: seq<Value>, kwargs: map<string, Value>, einfo: Value)
    | RequestOnTimeout(soft: bool, timeout: Value)

  /** A request context made by Baseplate; only its identity matters here. */
  class Context {
    constructor ()
    {
    }
  }

  /** One observable call into a collaborator. */
  datatype Event =
    | ContextMade(ctx: Context)
    | SpanOpened(ctx: Context, name: string)
    | TaskRan(ctx: Context, args: seq<Value>, kwargs: map<string, Value>)
    | SpanClosed(ctx: Context, error: Option<Exception>)
    | CounterIncremented(ctx: Context, counter: string, tags: Tags)
    | MetricsFlushed(ctx: Context)
    | SuperHookCalled(hook: SuperHook)
    | TasksDiscovered(packages: seq<string>)
    | WorkerStarted(argv: seq<string>)

  /** Whether an event concerns the given context. */
  predicate Mentions(e: Event, ctx: Context)
  {
    match e
    case ContextMade(c) => c == ctx
    case SpanOpened(c, _) => c == ctx
    case TaskRan(c, _, _) => c == ctx
    case SpanClosed(c, _) => c == ctx
    case CounterIncremented(c, _, _) => c == ctx
    case MetricsFlushed(c) => c == ctx
    case _ => false
  }

  /** The append-only record of everything the collaborators were asked to do. */
  class EventLog {
    var events: seq<Event>

    constructor ()
      ensures events == []
    {
      events := [];
    }

    method Append(e: Event)
      modifies this
      ensures events == old(events) + [e]
    {
      events := events + [e];
    }
  }

  /** The lifecycle of a server span used as a context manager. */
  datatype SpanState = Created | Entered | Exited

  /** A server span made by `Baseplate.make_server_span`. */
  class ServerSpan {
    const ctx: Context
    const name: string
    var state: SpanState

    constructor (ctx: Context, name: string)
      ensures this.ctx == ctx && this.name == name && state == Created
    {
      this.ctx := ctx;
      this.name := name;
      state := Created;
    }

    /** `__enter__`: starts the span. */
    method Enter(log: EventLog)
      requires state == Created
      modifies this, log
      ensures state == Entered
      ensures log.events == old(log.events) + [SpanOpened(ctx, name)]
    {
      log.Append(SpanOpened(ctx, name));
      state := Entered;
    }

    /** `__exit__`: finishes the span, told which exception (if any) is leaving the block. */
    method Exit(log: EventLog, error: Option<Exception>)
      requires state == Entered
      modifies this, log
      ensures state == Exited
      ensures log.events == old(log.events) + [SpanClosed(ctx, error)]
    {
      log.Append(SpanClosed(ctx, error));
      state := Exited;
    }
  }

  /** The Baseplate object an application is bound to: a factory of contexts and spans. */
  class Baseplate {
    constructor ()
    {
    }

    /** `make_context_object()`: a new context on every call. */
    method MakeContextObject(log: EventLog) returns (ctx: Context)
      modifies log
      ensures fresh(ctx)
      ensures log.events == old(log.events) + [ContextMade(ctx)]
    {
      ctx := new Context();
      log.Append(ContextMade(ctx));
    }

    /** `make_server_span(ctx, name)`: a span not yet entered. */
    method MakeServerSpan(ctx: Context, name: string) returns (span: ServerSpan)
      ensures fresh(span)
      ensures span.ctx == ctx && span.name == name && span.state == Created
    {
      span := new ServerSpan(ctx, name);
    }
  }

  /** The number of events in `events` that satisfy `p`. */
  function CountIf(events: seq<Event>, p: Event -> bool): (n: nat)
    ensures n <= |events|
  {
    if events == [] then 0
    else (if p(events[0]) then 1 else 0) + CountIf(events[1..], p)
  }

  lemma {:induction false} CountIfAppend(a: seq<Event>, b: seq<Event>, p: Event -> bool)
    ensures CountIf(a + b, p) == CountIf(a, p) + CountIf(b, p)
  {
    if a != [] {
      CountIfAppend(a[1..], b, p);
      assert (a + b)[1..] == a[1..] + b;
    } else {
      assert a + b == b;
    }
  }

  /** Counting the first event separately. */
  lemma CountIfCons(e: Event, rest: seq<Event>, p: Event -> bool)
    ensures CountIf([e] + rest, p) == (if p(e) then 1 else 0) + CountIf(rest, p)
  {
    assert ([e] + rest)[1..] == rest;
  }

  lemma {:induction false} CountIfNone(events: seq<Event>, p: Event -> bool)
    requires forall i :: 0 <= i < |events| ==> !p(events[i])
    ensures CountIf(events, p) == 0
  {
    if events != [] {
      CountIfNone(events[1..], p);
    }
  }
}
