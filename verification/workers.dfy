/**
 * The `BaseplateCelery` application: binding it to a Baseplate object
 * (`set_baseplate`) and starting the worker pool (`run_workers`).
 */
module Workers {
  import opened Wrappers
  import opened PyStr
  import opened Collaborators

  /** The options `parse_celery_configs` reads under its prefix. */
  datatype CeleryConfig = CeleryConfig(serviceName: string, brokerUrl: string, db: map<string, string>)

  /** The options `run_workers` reads: an optional worker command line and the task package. */
  datatype WorkerConfig = WorkerConfig(command: Option<string>, tasks: string)

  /** The two Celery settings `set_baseplate` writes; None until written. */
  datatype Conf = Conf(brokerUrl: Option<string>, resultBackend: Option<string>)

  /** The prefix `parse_celery_configs` uses when none is given. */
  const DefaultPrefix := "celery."

  /**
   * The configuration section `parse_celery_configs` hands to its parser:
   * the prefix must end in `.` (an assertion), and the section is the prefix
   * without that dot.
   */
  function ConfigSection(prefix: string): (r: Result<string, Exception>)
    ensures r.Success? <==> |prefix| >= 1 && prefix[|prefix| - 1] == '.'
    ensures r.Success? ==> r.value + "." == prefix
    ensures r.Failure? ==> r.error == AssertionError
  {
    if |prefix| >= 1 && prefix[|prefix| - 1] == '.' then
      assert prefix[..|prefix| - 1] + "." == prefix;
      Success(prefix[..|prefix| - 1])
    else
      Failure(AssertionError)
  }

  /** With the default prefix the options are read from the `celery` section. */
  lemma DefaultSection()
    ensures ConfigSection(DefaultPrefix) == Success("celery")
  {
    assert DefaultPrefix[..|DefaultPrefix| - 1] == "celery";
  }

  /** The result backend URL: the database engine's URL behind a `db+` scheme prefix. */
  function BackendUrl(engineUrl: string): (r: string)
    ensures |r| == |engineUrl| + 3
    ensures r[..3] == "db+" && r[3..] == engineUrl
  {
    "db+" + engineUrl
  }

  /** Python truthiness of an optional string: neither None nor empty. */
  predicate Truthy(command: Option<string>)
  {
    command.Some? && command.value != ""
  }

  /**
   * The argument list the worker is started with: `worker`, then, when the
   * configured command is truthy, its space-separated pieces in order,
   * empty pieces from repeated spaces included.
   */
  function WorkerCommand(command: Option<string>): (argv: seq<string>)
    ensures |argv| >= 1 && argv[0] == "worker"
    ensures !Truthy(command) ==> argv == ["worker"]
    ensures Truthy(command) ==>
      |argv| == multiset(command.value)[' '] + 2 &&
      (forall i :: 1 <= i < |argv| ==> ' ' !in argv[i]) &&
      Join(argv[1..], ' ') == command.value
  {
    if Truthy(command) then
      var flags := Split(command.value, ' ');
      JoinSplit(command.value, ' ');
      assert (["worker"] + flags)[1..] == flags;
      ["worker"] + flags
    else
      ["worker"]
  }

  /**
   * The pieces after `worker` are the only separator-free pieces that join
   * back to the configured command, so they are exactly its split.
   */
  lemma WorkerFlagsAreSplit(command: string)
    requires command != ""
    ensures WorkerCommand(Some(command))[1..] == Split(command, ' ')
  {
    var flags := WorkerCommand(Some(command))[1..];
    SplitJoin(flags, ' ');
  }

  /** Two spaces in a row give an empty flag between them. */
  lemma {:induction false} WorkerCommandKeepsEmptyFlags(a: string, b: string)
    requires ' ' !in a && ' ' !in b
    ensures WorkerCommand(Some(a + [' ', ' '] + b)) == ["worker", a, [], b]
  {
    var command := a + [' ', ' '] + b;
    var flags := [a, [], b];
    JoinCons([], [b], ' ');
    JoinCons(a, [[], b], ' ');
    assert [a] + [[], b] == flags;
    assert Join(flags, ' ') == command;
    SplitJoin(flags, ' ');
    WorkerFlagsAreSplit(command);
    var argv := WorkerCommand(Some(command));
    assert argv == [argv[0]] + argv[1..];
  }

  class BaseplateCelery {
    var baseplate: Baseplate?
    var appConfig: Option<CeleryConfig>
    var conf: Conf

    /**
     * `BaseplateCelery(*args, **kwargs)`; `initial` stands for the broker and
     * backend settings the arguments passed on to Celery give.
     */
    constructor (initial: Conf)
      ensures baseplate == null && appConfig == None && conf == initial
    {
      baseplate := null;
      appConfig := None;
      conf := initial;
    }

    /**
     * `set_baseplate(baseplate)`. The Baseplate object is stored first; then
     * the parsed `celery.` options (`parsed`) are stored; then the broker URL
     * and the backend URL built from the database engine's URL (`engineUrl`)
     * are written to the Celery settings. A failure of either outside step
     * leaves what was already assigned in place and propagates.
     */
    method SetBaseplate(bp: Baseplate, parsed: Result<CeleryConfig, Exception>,
                        engineUrl: Result<string, Exception>)
      returns (err: Option<Exception>)
      modifies this
      ensures baseplate == bp
      ensures parsed.Failure? ==>
        err == Some(parsed.error) && appConfig == old(appConfig) && conf == old(conf)
      ensures parsed.Success? && engineUrl.Failure? ==>
        err == Some(engineUrl.error) && appConfig == Some(parsed.value) && conf == old(conf)
      ensures parsed.Success? && engineUrl.Success? ==>
        err == None && appConfig == Some(parsed.value) &&
        conf == Conf(Some(parsed.value.brokerUrl), Some(BackendUrl(engineUrl.value)))
    {
      baseplate := bp;
      if parsed.Failure? {
        return Some(parsed.error);
      }
      appConfig := Some(parsed.value);
      if engineUrl.Failure? {
        return Some(engineUrl.error);
      }
      var backendUrl := BackendUrl(engineUrl.value);
      conf := Conf(Some(appConfig.value.brokerUrl), Some(backendUrl));
      err := None;
    }

    /**
     * `run_workers(app_config)` once its options are parsed (`cfg`): builds
     * the worker command in place, registers the task package, and starts
     * the worker with that command.
     */
    method RunWorkers(log: EventLog, cfg: Result<WorkerConfig, Exception>)
      returns (err: Option<Exception>)
      modifies log
      ensures cfg.Failure? ==> err == Some(cfg.error) && log.events == old(log.events)
      ensures cfg.Success? ==>
        err == None &&
        log.events == old(log.events) +
          [TasksDiscovered([cfg.value.tasks]), WorkerStarted(WorkerCommand(cfg.value.command))]
    {
      if cfg.Failure? {
        return Some(cfg.error);
      }
      var workerCommand := ["worker"];
      if Truthy(cfg.value.command) {
        var workerCommandFlags := Split(cfg.value.command.value, ' ');
        workerCommand := workerCommand + workerCommandFlags;
      }
      log.Append(TasksDiscovered([cfg.value.tasks]));
      log.Append(WorkerStarted(workerCommand));
      err := None;
    }
  }
}
